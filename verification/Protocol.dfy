/**
 The daemon's recording protocol as a step machine, for any number of sessions.

 One step runs a task from one `await` to the next. Each session carries a program
 counter `Pc`; `Instr` is the program it runs: the body of `start_recording`
 (`crates/zwhisperd/src/recorder_service.rs`) followed by `run_lifecycle`
 (`crates/zwhisperd/src/lifecycle.rs`). A fallible call has an outcome, `Choice`.

 `log` is the one global history: every signal the daemon emits, in order, with
 the moments the slot was reserved and released.
 */
module Protocol {
  import opened Wrappers
  import opened SessionManagers

  datatype StopReason = Running | UserRequested | RecorderEnded

  datatype Letter =
    | Reserve | Release
    | Starting | Recording | Stopping | RecordingComplete | TranscriptComplete | Idle | Failed

  datatype Entry = Entry(session: SessionId, letter: Letter, path: string)

  /** How a lifecycle ends, which decides its terminal state. */
  datatype Ending = WithTranscript | AudioOnly | JobFailed | RecorderError | DrainPanic

  /** Where a session's task is suspended, or how it ended. */
  datatype Pc =
    // start_recording, holding the start lock
    | Reserved
    | StartingSent
    | RecorderUp
    | FileWritten
    | RecordingSent
    | StartFailed
    | StartFailedSent
    // start_recording has returned without a lifecycle
    | Silent
    | Rejected
    | Leaked
    // run_lifecycle
    | Listening
    | Draining
    | DrainedOk
    | DrainedErr
    | StoppingSent
    | LastWritten(ok: bool)
    | CompleteSent(ok: bool)
    | Released(ok: bool)
    | JobSubmitted
    | TranscriptReady
    | TranscriptSaved
    | Closing(how: Ending)
    | Closed(how: Ending)
    | Finished(how: Ending)

  datatype Choice = Proceed | Fail | Panic

  datatype Action =
    | Pause
    | Say(letter: Letter)
    | FreeSlot
    | FreeSlotAndReturn
    | Return
    | Spawn
    | SaveActive(written: bool)
    | SaveAudio(written: bool)
    | SaveTranscript(written: bool)
    | ClearActive(removed: bool)

  predicate Halted(pc: Pc) {
    pc.Silent? || pc.Rejected? || pc.Leaked? || pc.Finished?
  }

  function Terminal(how: Ending): Letter {
    if how == WithTranscript || how == AudioOnly then Idle else Failed
  }

  /** The program: what a task does next at `pc`, and where it is suspended after. */
  function Instr(pc: Pc, auto: bool, c: Choice): (Action, Pc) {
    match pc
    // GStreamer init or the output directory may fail: release and return, no signal.
    case Reserved => if c == Proceed then (Say(Starting), StartingSent) else (FreeSlotAndReturn, Silent)
    // Recorder::start
    case StartingSent => if c == Proceed then (Pause, RecorderUp) else (FreeSlot, StartFailed)
    case StartFailed => (Say(Failed), StartFailedSent)
    case StartFailedSent => (Return, Rejected)
    // active-session.json is written before "recording"; a failed write is only logged.
    case RecorderUp => (SaveActive(c == Proceed), FileWritten)
    case FileWritten => (Say(Recording), RecordingSent)
    // The interface lookup may fail: the call returns and nobody releases the slot.
    case RecordingSent => if c == Proceed then (Spawn, Listening) else (Return, Leaked)
    case Listening => (Pause, Draining)
    case Draining =>
      (match c
       case Proceed => (Pause, DrainedOk)
       case Fail => (Pause, DrainedErr)
       case Panic => (FreeSlot, Closing(DrainPanic)))
    case DrainedOk => (Say(Stopping), StoppingSent)
    case StoppingSent => (SaveAudio(c == Proceed), LastWritten(true))
    case DrainedErr => (SaveAudio(c == Proceed), LastWritten(false))
    case LastWritten(ok) => (Say(RecordingComplete), CompleteSent(ok))
    case CompleteSent(ok) => (FreeSlot, Released(ok))
    case Released(ok) =>
      if !ok then (Pause, Closing(RecorderError))
      else if auto then (Pause, JobSubmitted)
      else (Pause, Closing(AudioOnly))
    case JobSubmitted => if c == Proceed then (Pause, TranscriptReady) else (Pause, Closing(JobFailed))
    case TranscriptReady => (SaveTranscript(c == Proceed), TranscriptSaved)
    case TranscriptSaved => (Say(TranscriptComplete), Closing(WithTranscript))
    case Closing(how) => (Say(Terminal(how)), Closed(how))
    case Closed(how) => (ClearActive(c == Proceed), Finished(how))
    case _ => (Pause, pc)
  }

  // ---- State ----------------------------------------------------------------

  /** What `StartRecording` fixed for the session: the profile, auto-transcribe, the output path. */
  datatype Info = Info(profile: string, auto: bool, output: string)

  const SCHEMA_VERSION: nat := 1

  datatype ActiveFile = ActiveFile(schemaVersion: nat, sessionId: SessionId, profile: string)

  datatype LastFile = LastFile(schemaVersion: nat, sessionId: SessionId, audioPath: string,
                               transcriptPath: string, backend: string)

  /** A stop call that has cloned the hook and not yet called it. */
  datatype Fire = Fire(asked: SessionId, recorder: SessionId)

  datatype Reply = Reply(asked: SessionId, attempt: StopAttempt)

  datatype State = State(
    mgr: Manager,
    waiting: nat,                          // StartRecording calls queued on the start lock
    startLock: Option<SessionId>,
    pcs: map<SessionId, Pc>,
    infos: map<SessionId, Info>,
    reasons: map<SessionId, StopReason>,   // each recorder's stop watch channel
    fires: multiset<Fire>,
    replies: set<Reply>,                   // every answer a stop call has been given
    drainAsked: set<SessionId>,            // sessions whose recorder shutdown asked to stop
    taken: set<SessionId>,                 // lifecycle handles shutdown has taken
    active: Option<ActiveFile>,
    last: Option<LastFile>,
    log: seq<Entry>)

  function Init(active: Option<ActiveFile>, last: Option<LastFile>): State {
    State(Manager(None, [], 0), 0, None, map[], map[], map[], multiset{}, {}, {}, {}, active, last, [])
  }

  const RECORDINGS_DIR := "zwhisper/recordings/"

  /** `output_path_for_session`, below the user's data directory. */
  function OutputPath(id: SessionId): string {
    RECORDINGS_DIR + id + ".flac"
  }

  // Two sessions never share an audio path.
  lemma OutputPathIsInjective(a: SessionId, b: SessionId)
    requires OutputPath(a) == OutputPath(b)
    ensures a == b
  {
    var n := |RECORDINGS_DIR|;
    assert |a| == |b|;
    assert OutputPath(a)[n..n + |a|] == a && OutputPath(b)[n..n + |b|] == b;
  }

  function TranscriptPath(id: SessionId): string {
    RECORDINGS_DIR + id + ".txt"
  }

  function AudioOnlyFile(id: SessionId, audio: string): LastFile {
    LastFile(SCHEMA_VERSION, id, audio, "", "")
  }

  function WithTranscriptFile(id: SessionId, audio: string): LastFile {
    LastFile(SCHEMA_VERSION, id, audio, TranscriptPath(id), "backend")
  }

  // ---- Steps ----------------------------------------------------------------

  datatype Event =
    | Call
    | Refuse
    | Admit(id: SessionId, profile: string, auto: bool)
    | Advance(id: SessionId, choice: Choice)
    | StopCall(asked: SessionId)
    | FireHook(fire: Fire)
    | RecorderStops(id: SessionId)
    | ShutdownTakes

  predicate HasRecorder(pc: Pc) {
    pc.RecorderUp? || pc.FileWritten? || pc.RecordingSent? || pc.Listening? || pc.Draining?
  }

  predicate Enabled(d: State, e: Event) {
    match e
    case Call => true
    case Refuse => d.waiting > 0 && d.startLock.None? && d.mgr.inflight > 0
    // `SessionId::new()` is a fresh UUID; an empty profile name was refused before it is drawn.
    case Admit(id, profile, _) =>
      d.waiting > 0 && d.startLock.None? && d.mgr.inflight > 0 && id !in d.pcs && id != "" && profile != ""
    case Advance(id, choice) =>
      && id in d.pcs && id in d.infos && id in d.reasons
      && !Halted(d.pcs[id])
      // the wait ends on a stop reason, or when the watch channel closes without one
      && (d.pcs[id].Listening? && choice == Proceed ==> d.reasons[id] != Running)
    case StopCall(_) => true
    case FireHook(fire) => fire in d.fires
    case RecorderStops(id) => id in d.pcs && HasRecorder(d.pcs[id])
    case ShutdownTakes => true
  }

  function Emit(d: State, id: SessionId, letter: Letter): State
    requires id in d.infos
  {
    d.(log := d.log + [Entry(id, letter, if letter == RecordingComplete then d.infos[id].output else "")])
  }

  function FinishedTasks(pcs: map<SessionId, Pc>): set<SessionId> {
    set s | s in pcs && pcs[s].Finished?
  }

  /** Dropping the start lock and the in-flight guard. */
  function ReturnFromStart(d: State): State {
    d.(startLock := None, mgr := d.mgr.EndStart())
  }

  function Perform(d: State, id: SessionId, act: Action): State
    requires id in d.infos
  {
    match act
    case Pause => d
    case Say(letter) => Emit(d, id, letter)
    case FreeSlot => Emit(d.(mgr := d.mgr.Release()), id, Release)
    case FreeSlotAndReturn => ReturnFromStart(Emit(d.(mgr := d.mgr.Release()), id, Release))
    case Return => ReturnFromStart(d)
    case Spawn =>
      ReturnFromStart(d.(mgr := d.mgr.InstallStopHook(id).RegisterLifecycle(id, FinishedTasks(d.pcs))))
    case SaveActive(written) =>
      if written then d.(active := Some(ActiveFile(SCHEMA_VERSION, id, d.infos[id].profile))) else d
    case SaveAudio(written) =>
      if written then d.(last := Some(AudioOnlyFile(id, d.infos[id].output))) else d
    case SaveTranscript(written) =>
      if written then d.(last := Some(WithTranscriptFile(id, d.infos[id].output))) else d
    case ClearActive(removed) =>
      if removed then d.(active := None) else d
  }

  function CallQueues(d: State): State {
    d.(waiting := d.waiting + 1, mgr := d.mgr.BeginStart())
  }

  /** A queued call gets the lock and fails: bad profile, or the slot is taken. */
  function CallFails(d: State): State
    requires d.waiting > 0
  {
    d.(waiting := d.waiting - 1, mgr := d.mgr.EndStart())
  }

  function CallReserves(d: State, id: SessionId, profile: string, auto: bool): State
    requires d.waiting > 0
  {
    d.(waiting := d.waiting - 1,
       startLock := Some(id),
       mgr := d.mgr.Reserve(id, profile),
       pcs := d.pcs[id := Reserved],
       infos := d.infos[id := Info(profile, auto, OutputPath(id))],
       reasons := d.reasons[id := Running],
       log := d.log + [Entry(id, Reserve, "")])
  }

  /** The state after the task of `id` performs `act` and is suspended at `next`. */
  function After(d: State, id: SessionId, act: Action, next: Pc): State
    requires id in d.infos
  {
    Perform(d, id, act).(pcs := d.pcs[id := next])
  }

  function TaskAdvances(d: State, id: SessionId, choice: Choice): State
    requires id in d.pcs && id in d.infos
  {
    After(d, id, Instr(d.pcs[id], d.infos[id].auto, choice).0, Instr(d.pcs[id], d.infos[id].auto, choice).1)
  }

  function StopArrives(d: State, asked: SessionId): State {
    if d.mgr.StopDecision(asked) == Stopped then
      d.(fires := d.fires + multiset{Fire(asked, d.mgr.slot.value.stopHook.value)})
    else
      d.(replies := d.replies + {Reply(asked, d.mgr.StopDecision(asked))})
  }

  function HookFires(d: State, fire: Fire): State {
    d.(fires := d.fires - multiset{fire},
       reasons := d.reasons[fire.recorder := UserRequested],
       replies := d.replies + {Reply(fire.asked, Stopped)})
  }

  function RecorderEnds(d: State, id: SessionId): State {
    d.(reasons := d.reasons[id := RecorderEnded])
  }

  function TasksTaken(d: State): State {
    d.(taken := d.taken + (set t | t in d.mgr.tasks), mgr := d.mgr.TakeLifecycleTasks())
  }

  /** `request_stop_active` from shutdown. */
  function DrainRequested(d: State): State {
    match d.mgr.ActiveHook()
    case None => d
    case Some(h) => d.(reasons := d.reasons[h := UserRequested], drainAsked := d.drainAsked + {h})
  }

  function Do(d: State, e: Event): State
    requires Enabled(d, e)
  {
    match e
    case Call => CallQueues(d)
    case Refuse => CallFails(d)
    case Admit(id, profile, auto) =>
      if d.mgr.slot.Some? then CallFails(d) else CallReserves(d, id, profile, auto)
    case Advance(id, choice) => TaskAdvances(d, id, choice)
    case StopCall(asked) => StopArrives(d, asked)
    case FireHook(fire) => HookFires(d, fire)
    case RecorderStops(id) => RecorderEnds(d, id)
    // the loop exit, the stop request and the take have no await between them: one step
    case ShutdownTakes => TasksTaken(DrainRequested(d))
  }

  // ---- Runs -----------------------------------------------------------------

  /** `d'` is reached from `d` by the events `es`, in order. */
  ghost predicate Path(d: State, es: seq<Event>, d': State)
    decreases |es|
  {
    if es == [] then d == d'
    else Enabled(d, es[0]) && Path(Do(d, es[0]), es[1..], d')
  }

  ghost predicate Leads(d: State, d': State) {
    exists es :: Path(d, es, d')
  }

  /** Every state the daemon can be in, started with any state files on disk. */
  ghost predicate Reachable(d: State) {
    exists active, last :: LastFileIsOwn(last) && Leads(Init(active, last), d)
  }

  /** A last-session file names an audio path that is its own session's. */
  predicate LastFileIsOwn(last: Option<LastFile>) {
    last.Some? ==> last.value.audioPath == OutputPath(last.value.sessionId)
  }
}
