/**
 The daemon composed with the tray pump (`run_inner` in
 `crates/zwhisper-tray/src/pump.rs`): it opens its three signal streams one after
 another, then takes a snapshot through calls and file reads, then handles the
 streams in any order relative to each other, and may lose the connection, or a
 message, at any step. The daemon moves between any two of the pump's steps.
 */
module TrayPump {
  import opened Wrappers
  import opened SessionManagers
  import opened Protocol
  import opened ProtocolProofs
  import opened SignalOrder
  import Tray

  /** How far one connection of the pump has come. */
  datatype Phase = Offline | StateOpen | RecordingOpen | Subscribed | SawStatus | SawLast | SawActive | Live

  /**
     Each stream is a position in the daemon's log: it delivers the entries of its
     kind from there on. `since` is where the state stream was opened, and `seen`
     the session that held the slot when the status was read.
   */
  datatype Pump = Pump(
    phase: Phase,
    since: nat, states: nat, recordings: nat, transcripts: nat,
    seen: Option<SessionId>, seenAt: nat,
    last: Option<Tray.LastCompleted>, activeId: Option<SessionId>,
    lossless: bool)

  datatype World = World(d: State, panel: Tray.Panel, pump: Pump)

  datatype Stream = StateStream | RecordingStream | TranscriptStream

  datatype Tick =
    | Daemon(e: Event)
    | Open(stream: Stream)
    | AskStatus
    | ReadLast(ok: bool)
    | ReadActive(ok: bool)
    | Show(startedAt: nat)
    | TakeState(now: nat)
    | TakeRecording
    | TakeTranscript(ok: bool)
    | Lose(stream: Stream)
    | Disconnect(left: bool)
    | Menu(cmd: Option<Tray.PendingCmd>)

  predicate IsState(l: Letter) {
    l == Starting || l == Recording || l == Stopping || l == Idle || l == Failed
  }

  /** The state name a signal carries. */
  function Wire(l: Letter): string {
    match l
    case Starting => "starting"
    case Recording => "recording"
    case Stopping => "stopping"
    case Idle => "idle"
    case _ => "failed"
  }

  /** `read_last_session`: absent, of another version, or without audio counts as none. */
  function ReadLastFile(file: Option<LastFile>): Option<Tray.LastCompleted> {
    if file.None? then None
    else
      var f := file.value;
      var parsed := Tray.ParseLast(f.schemaVersion, f.sessionId, f.audioPath, f.transcriptPath, f.backend);
      if parsed.Ok? then Some(parsed.value) else None
  }

  function ReadActiveFile(file: Option<ActiveFile>): Option<SessionId> {
    if file.None? then None
    else
      var parsed := Tray.ParseActive(file.value.schemaVersion, file.value.sessionId);
      if parsed.Ok? then Some(parsed.value) else None
  }

  function StatusWire(seen: Option<SessionId>): string {
    if seen.Some? then "recording" else "idle"
  }

  function Position(p: Pump, stream: Stream): nat {
    match stream
    case StateStream => p.states
    case RecordingStream => p.recordings
    case TranscriptStream => p.transcripts
  }

  predicate Could(w: World, t: Tick) {
    match t
    case Daemon(e) => Enabled(w.d, e)
    case Open(StateStream) => w.pump.phase.Offline?
    case Open(RecordingStream) => w.pump.phase.StateOpen?
    case Open(TranscriptStream) => w.pump.phase.RecordingOpen?
    case AskStatus => w.pump.phase.Subscribed?
    case ReadLast(_) => w.pump.phase.SawStatus?
    case ReadActive(_) => w.pump.phase.SawLast?
    case Show(_) => w.pump.phase.SawActive?
    case TakeState(_) => w.pump.phase.Live? && w.pump.states < |w.d.log|
    case TakeRecording => w.pump.phase.Live? && w.pump.recordings < |w.d.log|
    case TakeTranscript(_) => w.pump.phase.Live? && w.pump.transcripts < |w.d.log|
    case Lose(stream) => !w.pump.phase.Offline? && Position(w.pump, stream) < |w.d.log|
    case Disconnect(_) => true
    case Menu(_) => true
  }

  function Opened(p: Pump, stream: Stream, n: nat): Pump {
    match stream
    case StateStream =>
      p.(phase := StateOpen, since := n, states := n, recordings := n, transcripts := n, lossless := true)
    case RecordingStream => p.(phase := RecordingOpen, recordings := n)
    case TranscriptStream => p.(phase := Subscribed, transcripts := n)
  }

  function Skipped(p: Pump, stream: Stream): Pump {
    match stream
    case StateStream => p.(states := p.states + 1, lossless := false)
    case RecordingStream => p.(recordings := p.recordings + 1)
    case TranscriptStream => p.(transcripts := p.transcripts + 1)
  }

  /** The status read at this moment, remembering who held the slot. */
  function Asked(d: State, p: Pump): Pump {
    p.(phase := SawStatus, seenAt := |d.log|,
       seen := if d.mgr.slot.Some? then Some(d.mgr.slot.value.sessionId) else None)
  }

  function Shown(panel: Tray.Panel, p: Pump, startedAt: nat): Tray.Panel {
    Tray.Snapshot(panel, StatusWire(p.seen), p.activeId, p.last, startedAt)
  }

  /** What a stream does with the log entry it has reached: its own kind is handled, the rest is not there. */
  function TakesState(panel: Tray.Panel, e: Entry, now: nat): Tray.Panel {
    if IsState(e.letter) then Tray.StateChanged(panel, Wire(e.letter), e.session, now) else panel
  }

  function TakesRecording(panel: Tray.Panel, e: Entry): Tray.Panel {
    if e.letter == RecordingComplete then Tray.RecordingComplete(panel, e.session, e.path) else panel
  }

  /** `file` is the state file as read when the signal is handled. */
  function TakesTranscript(panel: Tray.Panel, e: Entry, file: Option<Tray.LastCompleted>): Tray.Panel {
    var fromFile := if file.Some? && file.value.sessionId == e.session then Some(file.value.audioPath) else None;
    if e.letter == TranscriptComplete then
      Tray.TranscriptComplete(panel, e.session, fromFile, TranscriptPath(e.session), "backend")
    else
      panel
  }

  function ReadIf(ok: bool, file: Option<LastFile>): Option<Tray.LastCompleted> {
    if ok then ReadLastFile(file) else None
  }

  function Happen(w: World, t: Tick): World
    requires Could(w, t)
  {
    match t
    case Daemon(e) => w.(d := Do(w.d, e))
    case Open(stream) => w.(pump := Opened(w.pump, stream, |w.d.log|))
    case AskStatus => w.(pump := Asked(w.d, w.pump))
    case ReadLast(ok) => w.(pump := w.pump.(phase := SawLast, last := ReadIf(ok, w.d.last)))
    case ReadActive(ok) =>
      w.(pump := w.pump.(phase := SawActive, activeId := if ok then ReadActiveFile(w.d.active) else None))
    case Show(startedAt) => w.(panel := Shown(w.panel, w.pump, startedAt), pump := w.pump.(phase := Live))
    case TakeState(now) =>
      w.(panel := TakesState(w.panel, w.d.log[w.pump.states], now), pump := w.pump.(states := w.pump.states + 1))
    case TakeRecording =>
      w.(panel := TakesRecording(w.panel, w.d.log[w.pump.recordings]),
         pump := w.pump.(recordings := w.pump.recordings + 1))
    case TakeTranscript(ok) =>
      w.(panel := TakesTranscript(w.panel, w.d.log[w.pump.transcripts], ReadIf(ok, w.d.last)),
         pump := w.pump.(transcripts := w.pump.transcripts + 1))
    case Lose(stream) => w.(pump := Skipped(w.pump, stream))
    case Disconnect(left) => w.(panel := Tray.Disconnected(w.panel, left), pump := w.pump.(phase := Offline))
    case Menu(cmd) => w.(panel := w.panel.(pendingCmd := cmd))
  }

  ghost predicate Trace(w: World, ts: seq<Tick>, w': World)
    decreases |ts|
  {
    if ts == [] then w == w' else Could(w, ts[0]) && Trace(Happen(w, ts[0]), ts[1..], w')
  }

  /** The tray runs beside a daemon from its start; its panel is left from anything before. */
  ghost predicate Starts(w: World) {
    && (exists active, last :: LastFileIsOwn(last) && w.d == Init(active, last))
    && OwnAudio(w.panel.lastSession) && OwnAudio(w.pump.last)
    && w.pump.phase.Offline? && w.panel.icon.DaemonOffline?
  }

  ghost predicate Emerges(w: World) {
    exists w0, ts :: Starts(w0) && Trace(w0, ts, w)
  }

  // ---- The invariant -------------------------------------------------------------------------

  /** An audio path is its own session's, or empty. */
  predicate OwnAudio(last: Option<Tray.LastCompleted>) {
    last.Some? ==> last.value.audioPath == "" || last.value.audioPath == OutputPath(last.value.sessionId)
  }

  /** The last state signal the stream has delivered. */
  function LastTaken(log: seq<Entry>, since: nat, upTo: nat): (r: Option<nat>)
    requires upTo <= |log|
    ensures r.Some? ==> since <= r.value < upTo && IsState(log[r.value].letter)
    ensures forall k | since <= k < upTo && IsState(log[k].letter) :: r.Some? && k <= r.value
  {
    if upTo <= since then None
    else if IsState(log[upTo - 1].letter) then Some(upTo - 1)
    else LastTaken(log, since, upTo - 1)
  }

  lemma {:induction false} LastTakenIsStable(log: seq<Entry>, log': seq<Entry>, since: nat, upTo: nat)
    requires log <= log' && upTo <= |log|
    ensures LastTaken(log', since, upTo) == LastTaken(log, since, upTo)
  {
    if upTo > since {
      LastTakenIsStable(log, log', since, upTo - 1);
    }
  }

  predicate AtRest(icon: Tray.IconState) {
    icon.Idle? || icon.Failed?
  }

  /** What a live, lossless panel shows: the last state signal it took, or the snapshot. */
  ghost predicate Shows(log: seq<Entry>, panel: Tray.Panel, p: Pump)
    requires p.states <= |log|
  {
    var m := LastTaken(log, p.since, p.states);
    && panel.icon == Tray.FromWire(if m.Some? then Wire(log[m.value].letter) else StatusWire(p.seen))
    && (AtRest(panel.icon) ==> panel.activeSessionId.None?)
    && (AtRest(panel.icon) && m.Some? ==> panel.recordingStartedAt.None?)
    && (panel.icon.Recording? ==> panel.recordingStartedAt.Some?)
    && (!AtRest(panel.icon) ==>
          if m.Some? then panel.activeSessionId == Some(log[m.value].session)
          else p.activeId.Some? ==> panel.activeSessionId == p.activeId)
  }

  ghost predicate ShowsWhenLive(log: seq<Entry>, panel: Tray.Panel, p: Pump) {
    && (p.phase.Live? && p.lossless ==> p.states <= |log| && Shows(log, panel, p))
    // nothing is handled before the snapshot
    && (!p.phase.Live? && !p.phase.Offline? && p.lossless ==> p.states == p.since)
    && (!p.phase.Live? ==> panel.icon.DaemonOffline?)
  }

  ghost predicate Positions(log: seq<Entry>, p: Pump) {
    !p.phase.Offline? ==>
      p.since <= p.states <= |log| && p.recordings <= |log| && p.transcripts <= |log|
  }

  predicate StatusRead(phase: Phase) {
    phase.SawStatus? || phase.SawLast? || phase.SawActive? || phase.Live?
  }

  ghost predicate NotEnded(log: seq<Entry>, s: SessionId) {
    forall k | 0 <= k < |log| && log[k].session == s :: log[k].letter != Idle && log[k].letter != Failed
  }

  /** The session seen in the slot had not yet ended, and the streams were already open. */
  ghost predicate SawHolder(log: seq<Entry>, ids: set<SessionId>, p: Pump) {
    StatusRead(p.phase) ==>
      && p.since <= p.seenAt <= |log|
      && (p.seen.Some? ==> p.seen.value in ids && NotEnded(log[..p.seenAt], p.seen.value))
  }

  ghost predicate PumpInv(log: seq<Entry>, ids: set<SessionId>, panel: Tray.Panel, p: Pump) {
    && Positions(log, p)
    && ShowsWhenLive(log, panel, p)
    && SawHolder(log, ids, p)
    && OwnAudio(panel.lastSession) && OwnAudio(p.last)
  }

  ghost predicate TrayInv(w: World) {
    Inv(w.d) && PumpInv(w.d.log, w.d.pcs.Keys, w.panel, w.pump)
  }

  // ---- One tick keeps it -----------------------------------------------------------------------

  lemma LogGrowthKeepsPump(log: seq<Entry>, log': seq<Entry>, ids: set<SessionId>, ids': set<SessionId>,
                           panel: Tray.Panel, p: Pump)
    requires PumpInv(log, ids, panel, p) && log <= log' && ids <= ids'
    ensures PumpInv(log', ids', panel, p)
  {
    if p.phase.Live? && p.lossless {
      LastTakenIsStable(log, log', p.since, p.states);
    }
    if StatusRead(p.phase) {
      assert log'[..p.seenAt] == log[..p.seenAt];
    }
    hide OwnAudio, LastTaken, Wire, StatusWire, AtRest, IsState, NotEnded;
  }

  lemma HolderHasNotEnded(pc: Pc)
    requires HoldsSlot(pc)
    ensures Idle !in Word(pc) && Failed !in Word(pc)
  {
  }

  // Whoever holds the slot has not said its terminal state.
  lemma HolderSaysNoTerminal(d: State)
    requires SlotOwned(d) && WordsKept(d) && d.mgr.slot.Some?
    ensures d.mgr.slot.value.sessionId in d.pcs && NotEnded(d.log, d.mgr.slot.value.sessionId)
  {
    var s := d.mgr.slot.value.sessionId;
    assert HoldsSlot(d.pcs[s]);
    HolderHasNotEnded(d.pcs[s]);
    assert Project(d.log, s) == Word(d.pcs[s]);
    hide HoldsSlot, Word, SlotOwned, WordsKept;
    forall k | 0 <= k < |d.log| && d.log[k].session == s
      ensures d.log[k].letter != Idle && d.log[k].letter != Failed
    {
      ProjectHas(d.log, k);
    }
  }

  lemma AskKeepsPump(d: State, panel: Tray.Panel, p: Pump)
    requires SlotOwned(d) && WordsKept(d) && PumpInv(d.log, d.pcs.Keys, panel, p) && p.phase.Subscribed?
    ensures PumpInv(d.log, d.pcs.Keys, panel, Asked(d, p))
  {
    if d.mgr.slot.Some? {
      HolderSaysNoTerminal(d);
    }
    assert d.log[..|d.log|] == d.log;
    hide SlotOwned, WordsKept, OwnAudio, NotEnded;
  }

  lemma ReadLastFileIsOwn(ok: bool, file: Option<LastFile>)
    requires LastFileIsOwn(file)
    ensures OwnAudio(ReadIf(ok, file))
  {
  }

  lemma ShowKeepsPump(log: seq<Entry>, ids: set<SessionId>, panel: Tray.Panel, p: Pump, startedAt: nat)
    requires PumpInv(log, ids, panel, p) && p.phase.SawActive?
    ensures PumpInv(log, ids, Shown(panel, p, startedAt), p.(phase := Live))
  {
    hide OutputPath, NotEnded;
  }

  lemma StateTaken(log: seq<Entry>, panel: Tray.Panel, p: Pump, now: nat)
    requires p.since <= p.states < |log| && Shows(log, panel, p) && log[p.states].session != ""
    ensures Shows(log, TakesState(panel, log[p.states], now), p.(states := p.states + 1))
  {
  }

  lemma TakeStateKeepsPump(log: seq<Entry>, ids: set<SessionId>, panel: Tray.Panel, p: Pump, now: nat)
    requires PumpInv(log, ids, panel, p) && p.phase.Live? && p.states < |log| && log[p.states].session != ""
    ensures PumpInv(log, ids, TakesState(panel, log[p.states], now), p.(states := p.states + 1))
  {
    if p.lossless {
      StateTaken(log, panel, p, now);
    }
    assert TakesState(panel, log[p.states], now).lastSession == panel.lastSession;
    hide TakesState, OwnAudio, Shows, NotEnded;
  }

  /** `panel'` differs from `panel` in the last session, which is still owned, at most. */
  ghost predicate SameFace(panel: Tray.Panel, panel': Tray.Panel) {
    && panel'.icon == panel.icon && panel'.activeSessionId == panel.activeSessionId
    && panel'.recordingStartedAt == panel.recordingStartedAt && OwnAudio(panel'.lastSession)
  }

  lemma SameFaceKeepsPump(log: seq<Entry>, ids: set<SessionId>, panel: Tray.Panel, p: Pump,
                          panel': Tray.Panel, p': Pump)
    requires PumpInv(log, ids, panel, p) && SameFace(panel, panel') && Positions(log, p')
    requires p' == p.(recordings := p'.recordings, transcripts := p'.transcripts)
    ensures PumpInv(log, ids, panel', p')
  {
    hide OwnAudio, LastTaken, Wire, StatusWire, NotEnded;
  }

  lemma RecordingTaken(panel: Tray.Panel, e: Entry)
    requires OwnAudio(panel.lastSession) && (e.letter == RecordingComplete ==> e.path == OutputPath(e.session))
    ensures SameFace(panel, TakesRecording(panel, e))
    ensures e.letter == RecordingComplete ==>
              TakesRecording(panel, e).lastSession
              == Some(Tray.LastCompleted(e.session, OutputPath(e.session), None, None))
  {
    hide OutputPath;
  }

  // After a transcript signal is handled, the audio path is the session's own, or none.
  lemma TranscriptTaken(panel: Tray.Panel, e: Entry, file: Option<Tray.LastCompleted>)
    requires OwnAudio(panel.lastSession) && OwnAudio(file)
    ensures SameFace(panel, TakesTranscript(panel, e, file))
    ensures e.letter == TranscriptComplete ==>
              var shown := TakesTranscript(panel, e, file).lastSession;
              && shown.Some? && shown.value.sessionId == e.session
              && (shown.value.audioPath == OutputPath(e.session) || shown.value.audioPath == "")
              && shown.value.audioPath == (if file.Some? && file.value.sessionId == e.session then file.value.audioPath
                                           else if panel.lastSession.Some?
                                                   && panel.lastSession.value.sessionId == e.session then
                                             panel.lastSession.value.audioPath
                                           else "")
              && shown.value.transcriptPath == Some(TranscriptPath(e.session))
  {
    hide OutputPath, TranscriptPath;
  }

  // A last-session file of this version with an audio path is read as it is; any other counts as none.
  lemma FileIsRead(file: Option<LastFile>)
    ensures
      var read := ReadLastFile(file);
      && (read.Some? <==> file.Some? && file.value.schemaVersion == 1 && file.value.audioPath != "")
      && (read.Some? ==>
            && read.value.sessionId == file.value.sessionId && read.value.audioPath == file.value.audioPath
            && read.value.transcriptPath
               == (if file.value.transcriptPath == "" then None else Some(file.value.transcriptPath))
            && read.value.backend == if file.value.backend == "" then None else Some(file.value.backend))
  {
  }

  lemma OtherTicksKeepPump(w: World, t: Tick)
    requires PumpInv(w.d.log, w.d.pcs.Keys, w.panel, w.pump) && LastFileIsOwn(w.d.last) && Could(w, t)
    requires t.Open? || t.ReadLast? || t.ReadActive? || t.Lose? || t.Disconnect? || t.Menu?
    ensures var w' := Happen(w, t);
            w'.d == w.d && PumpInv(w.d.log, w.d.pcs.Keys, w'.panel, w'.pump)
  {
    var log, ids := w.d.log, w.d.pcs.Keys;
    hide PumpInv, ReadIf, ReadActiveFile, Enabled, Do, Opened, Skipped, LastFileIsOwn;
    match t
    case Open(stream) => OpenKeepsPump(log, ids, w.panel, w.pump, stream);
    case ReadLast(ok) =>
      ReadLastFileIsOwn(ok, w.d.last);
      ReadKeepsPump(log, ids, w.panel, w.pump, ReadIf(ok, w.d.last), w.pump.activeId);
    case ReadActive(ok) =>
      ReadKeepsPump(log, ids, w.panel, w.pump, None, if ok then ReadActiveFile(w.d.active) else None);
    case Lose(stream) => LoseKeepsPump(log, ids, w.panel, w.pump, stream);
    case Disconnect(left) => DisconnectKeepsPump(log, ids, w.panel, w.pump, left);
    case Menu(cmd) => MenuKeepsPump(log, ids, w.panel, w.pump, cmd);
    case _ =>
  }

  lemma OpenKeepsPump(log: seq<Entry>, ids: set<SessionId>, panel: Tray.Panel, p: Pump, stream: Stream)
    requires PumpInv(log, ids, panel, p)
    requires (stream.StateStream? && p.phase.Offline?) || (stream.RecordingStream? && p.phase.StateOpen?)
          || (stream.TranscriptStream? && p.phase.RecordingOpen?)
    ensures PumpInv(log, ids, panel, Opened(p, stream, |log|))
  {
    hide OwnAudio, LastTaken, Wire, StatusWire, NotEnded;
  }

  // The two reads of the snapshot.
  lemma ReadKeepsPump(log: seq<Entry>, ids: set<SessionId>, panel: Tray.Panel, p: Pump,
                      last: Option<Tray.LastCompleted>, activeId: Option<SessionId>)
    requires PumpInv(log, ids, panel, p) && OwnAudio(last)
    ensures p.phase.SawStatus? ==> PumpInv(log, ids, panel, p.(phase := SawLast, last := last))
    ensures p.phase.SawLast? ==> PumpInv(log, ids, panel, p.(phase := SawActive, activeId := activeId))
  {
    hide OwnAudio, LastTaken, Wire, StatusWire, NotEnded;
  }

  lemma LoseKeepsPump(log: seq<Entry>, ids: set<SessionId>, panel: Tray.Panel, p: Pump, stream: Stream)
    requires PumpInv(log, ids, panel, p) && !p.phase.Offline? && Position(p, stream) < |log|
    ensures PumpInv(log, ids, panel, Skipped(p, stream))
  {
    hide OwnAudio, LastTaken, Wire, StatusWire, NotEnded;
  }

  lemma DisconnectKeepsPump(log: seq<Entry>, ids: set<SessionId>, panel: Tray.Panel, p: Pump, left: bool)
    requires PumpInv(log, ids, panel, p)
    ensures PumpInv(log, ids, Tray.Disconnected(panel, left), p.(phase := Offline))
  {
    hide OwnAudio, LastTaken, Wire, StatusWire, NotEnded;
  }

  lemma MenuKeepsPump(log: seq<Entry>, ids: set<SessionId>, panel: Tray.Panel, p: Pump, cmd: Option<Tray.PendingCmd>)
    requires PumpInv(log, ids, panel, p)
    ensures PumpInv(log, ids, panel.(pendingCmd := cmd), p)
  {
    hide OwnAudio, LastTaken, Wire, StatusWire, NotEnded;
  }

  lemma DaemonKeepsTray(w: World, e: Event)
    requires TrayInv(w) && Enabled(w.d, e)
    ensures TrayInv(w.(d := Do(w.d, e)))
  {
    StepKeepsInv(w.d, e);
    StepAppends(w.d, e);
    hide Do, Inv, PumpInv, Enabled;
    LogGrowthKeepsPump(w.d.log, Do(w.d, e).log, w.d.pcs.Keys, Do(w.d, e).pcs.Keys, w.panel, w.pump);
  }

  lemma TakeRecordingKeepsPump(d: State, panel: Tray.Panel, p: Pump)
    requires PathsOwned(d) && PumpInv(d.log, d.pcs.Keys, panel, p) && p.phase.Live? && p.recordings < |d.log|
    ensures PumpInv(d.log, d.pcs.Keys, TakesRecording(panel, d.log[p.recordings]), p.(recordings := p.recordings + 1))
  {
    RecordingTaken(panel, d.log[p.recordings]);
    var p' := p.(recordings := p.recordings + 1);
    assert Positions(d.log, p');
    hide TakesRecording, OwnAudio, ShowsWhenLive, SawHolder, Positions, SameFace;
    SameFaceKeepsPump(d.log, d.pcs.Keys, panel, p, TakesRecording(panel, d.log[p.recordings]), p');
  }

  lemma TakeTranscriptKeepsPump(d: State, panel: Tray.Panel, p: Pump, ok: bool)
    requires PathsOwned(d) && PumpInv(d.log, d.pcs.Keys, panel, p) && p.phase.Live? && p.transcripts < |d.log|
    ensures PumpInv(d.log, d.pcs.Keys, TakesTranscript(panel, d.log[p.transcripts], ReadIf(ok, d.last)),
                    p.(transcripts := p.transcripts + 1))
  {
    ReadLastFileIsOwn(ok, d.last);
    TranscriptTaken(panel, d.log[p.transcripts], ReadIf(ok, d.last));
    var p' := p.(transcripts := p.transcripts + 1);
    assert Positions(d.log, p');
    hide TakesTranscript, OwnAudio, ShowsWhenLive, SawHolder, Positions, SameFace, ReadIf;
    SameFaceKeepsPump(d.log, d.pcs.Keys, panel, p,
                      TakesTranscript(panel, d.log[p.transcripts], ReadIf(ok, d.last)), p');
  }

  lemma InvOwnsPaths(d: State)
    requires Inv(d)
    ensures PathsOwned(d) && LastFileIsOwn(d.last)
    ensures forall k | 0 <= k < |d.log| && d.log[k].letter == RecordingComplete ::
              d.log[k].path == OutputPath(d.log[k].session)
  {
    hide OutputPath, Domains, SlotOwned, HookOwned, GuardsCounted, TasksRegistered, StopsPrecise, WordsKept, LogOwned;
  }

  lemma SpeakersHaveNames(d: State, k: nat)
    requires Inv(d) && k < |d.log|
    ensures d.log[k].session in d.pcs && d.log[k].session != ""
  {
    hide OutputPath, SlotOwned, HookOwned, GuardsCounted, TasksRegistered, StopsPrecise, LogOwned, PathsOwned;
    ProjectHas(d.log, k);
    hide Project, Word;
  }

  lemma StatusAndShowKeepTray(w: World, t: Tick)
    requires TrayInv(w) && Could(w, t) && (t.AskStatus? || t.Show?)
    ensures TrayInv(Happen(w, t))
  {
    assert SlotOwned(w.d) && WordsKept(w.d);
    hide SlotOwned, WordsKept, PumpInv, Inv, Shown, Asked, Do, Enabled, Skipped, Opened;
    hide TakesState, TakesRecording, TakesTranscript;
    if t.AskStatus? {
      AskKeepsPump(w.d, w.panel, w.pump);
    } else {
      ShowKeepsPump(w.d.log, w.d.pcs.Keys, w.panel, w.pump, t.startedAt);
    }
  }

  lemma TakesKeepTray(w: World, t: Tick)
    requires TrayInv(w) && Could(w, t) && (t.TakeState? || t.TakeRecording? || t.TakeTranscript?)
    ensures TrayInv(Happen(w, t))
  {
    hide PumpInv, Inv, PathsOwned, TakesState, TakesRecording, TakesTranscript, ReadIf, Do, Enabled;
    hide Skipped, Opened, Asked, LastFileIsOwn, OwnAudio;
    InvOwnsPaths(w.d);
    if t.TakeState? {
      SpeakersHaveNames(w.d, w.pump.states);
      TakeStateKeepsPump(w.d.log, w.d.pcs.Keys, w.panel, w.pump, t.now);
    } else if t.TakeRecording? {
      TakeRecordingKeepsPump(w.d, w.panel, w.pump);
    } else {
      TakeTranscriptKeepsPump(w.d, w.panel, w.pump, t.ok);
    }
  }

  lemma TickKeepsTray(w: World, t: Tick)
    requires TrayInv(w) && Could(w, t)
    ensures TrayInv(Happen(w, t))
  {
    if t.Daemon? {
      DaemonKeepsTray(w, t.e);
      hide TrayInv, Do, Enabled;
    } else if t.AskStatus? || t.Show? {
      hide TrayInv, Happen, Could;
      StatusAndShowKeepTray(w, t);
    } else if t.TakeState? || t.TakeRecording? || t.TakeTranscript? {
      hide TrayInv, Happen, Could;
      TakesKeepTray(w, t);
    } else {
      InvOwnsPaths(w.d);
      hide Inv, PumpInv, Happen, Could;
      OtherTicksKeepPump(w, t);
    }
  }

  lemma {:induction false} TraceKeepsTray(w: World, ts: seq<Tick>, w': World)
    requires TrayInv(w) && Trace(w, ts, w')
    ensures TrayInv(w')
    decreases |ts|
  {
    if ts != [] {
      TickKeepsTray(w, ts[0]);
      hide TrayInv, Happen, Could;
      TraceKeepsTray(Happen(w, ts[0]), ts[1..], w');
    }
  }

  lemma EmergesIsInv(w: World)
    requires Emerges(w)
    ensures TrayInv(w)
  {
    var w0, ts :| Starts(w0) && Trace(w0, ts, w);
    var active, last :| LastFileIsOwn(last) && w0.d == Init(active, last);
    InitHolds(active, last);
    hide Inv, OwnAudio, Trace, Init;
    assert TrayInv(w0);
    TraceKeepsTray(w0, ts, w);
  }

  // ---- What follows --------------------------------------------------------------------------------

  predicate HasAudioOf(last: Option<Tray.LastCompleted>, s: SessionId) {
    last.Some? && last.value.sessionId == s && last.value.audioPath != ""
  }

  // Whatever overlaps, is lost or reconnects: once the tray has handled TranscriptComplete of a session,
  // its last session is that one, with its own audio path or none, never another's.
  lemma TranscriptNeverOpensAnothersAudio(w: World, ok: bool)
    requires Emerges(w) && Could(w, TakeTranscript(ok)) && w.d.log[w.pump.transcripts].letter == TranscriptComplete
    ensures
      var s := w.d.log[w.pump.transcripts].session;
      var shown := Happen(w, TakeTranscript(ok)).panel.lastSession;
      && shown.Some? && shown.value.sessionId == s
      && (shown.value.audioPath == OutputPath(s) || shown.value.audioPath == "")
      // it is the session's own whenever the file, if it can be read, or the panel before, has it
      && (ok && w.d.last.Some? && HasAudioOf(ReadLastFile(w.d.last), s) ==> shown.value.audioPath == OutputPath(s))
      && (HasAudioOf(w.panel.lastSession, s) ==> shown.value.audioPath == OutputPath(s))
      && shown.value.transcriptPath == Some(TranscriptPath(s))
  {
    FileIsRead(w.d.last);
    hide ReadLastFile, TranscriptPath;
    hide Emerges, Inv, TakesTranscript, TakesState, TakesRecording, OutputPath, Do, Enabled, Skipped, Opened;
    hide Asked, LastFileIsOwn;
    EmergesIsInv(w);
    InvOwnsPaths(w.d);
    ReadLastFileIsOwn(ok, w.d.last);
    TranscriptTaken(w.panel, w.d.log[w.pump.transcripts], ReadIf(ok, w.d.last));
  }

  lemma RecordingShowsOwnAudio(w: World)
    requires Emerges(w) && Could(w, TakeRecording) && w.d.log[w.pump.recordings].letter == RecordingComplete
    ensures
      var s := w.d.log[w.pump.recordings].session;
      Happen(w, TakeRecording).panel.lastSession == Some(Tray.LastCompleted(s, OutputPath(s), None, None))
  {
    hide Emerges, Inv, TakesTranscript, TakesState, TakesRecording, ReadIf, OutputPath, Do, Enabled, Skipped, Opened;
    hide Asked, OwnAudio, LastFileIsOwn;
    EmergesIsInv(w);
    InvOwnsPaths(w.d);
    RecordingTaken(w.panel, w.d.log[w.pump.recordings]);
  }

  // ---- The session that is shown ------------------------------------------------------------------

  lemma FaceOfLetter(l: Letter)
    requires IsState(l)
    ensures Tray.FromWire(Wire(l)) == match l
                                      case Starting => Tray.IconState.Starting
                                      case Recording => Tray.IconState.Recording
                                      case Stopping => Tray.IconState.Stopping
                                      case Idle => Tray.IconState.Idle
                                      case _ => Tray.IconState.Failed
  {
    Tray.HealthyIconsAreExact(Wire(l));
    assert "starting"[2] == 'a' && "stopping"[2] == 'o';
  }

  // On a live connection that has lost nothing, the face of the panel is that of the last state signal taken,
  // with its session while that is in flight and none after, and with the timer running while it records.
  // With no signal taken yet it is the snapshot's: recording, with the session the file named, or idle.
  lemma PanelShowsTheSession(w: World)
    requires Emerges(w) && w.pump.phase.Live? && w.pump.lossless
    ensures w.pump.states <= |w.d.log|
    ensures
      var m := LastTaken(w.d.log, w.pump.since, w.pump.states);
      if m.Some? then
        var e := w.d.log[m.value];
        match e.letter
        case Starting => w.panel.icon.Starting? && w.panel.activeSessionId == Some(e.session)
        case Recording =>
          && w.panel.icon.Recording? && w.panel.activeSessionId == Some(e.session)
          && w.panel.recordingStartedAt.Some?
        case Stopping => w.panel.icon.Stopping? && w.panel.activeSessionId == Some(e.session)
        case Idle => w.panel.icon.Idle? && w.panel.activeSessionId.None? && w.panel.recordingStartedAt.None?
        case _ => w.panel.icon.Failed? && w.panel.activeSessionId.None? && w.panel.recordingStartedAt.None?
      else if w.pump.seen.Some? then
        && w.panel.icon.Recording? && w.panel.recordingStartedAt.Some?
        && (w.pump.activeId.Some? ==> w.panel.activeSessionId == w.pump.activeId)
      else
        w.panel.icon.Idle? && w.panel.activeSessionId.None?
  {
    hide Emerges, Inv, OwnAudio, Wire, NotEnded, LastTaken;
    EmergesIsInv(w);
    Tray.HealthyIconsAreExact(StatusWire(w.pump.seen));
    var m := LastTaken(w.d.log, w.pump.since, w.pump.states);
    if m.Some? {
      FaceOfLetter(w.d.log[m.value].letter);
    }
  }

  // A tray that connects while a session records shows that session, if the file names it and can be read.
  lemma ReconnectShowsTheSession(w: World, id: SessionId, profile: string, startedAt: nat)
    requires Emerges(w) && w.pump.phase.SawLast? && w.pump.seen.Some?
    requires w.d.active == Some(ActiveFile(1, id, profile)) && id != ""
    ensures var read := Happen(w, ReadActive(true));
            var shown := Happen(read, Show(startedAt));
            && shown.panel.icon.Recording? && shown.panel.activeSessionId == Some(id)
            && shown.panel.recordingStartedAt == Some(startedAt)
  {
    hide Emerges, Do, Enabled;
  }

  /** The message in which the bus carries an entry of the log to the tray's loop. */
  function MessageOf(e: Entry, now: nat, file: Option<Tray.LastCompleted>): Tray.Message {
    if IsState(e.letter) then Tray.StateMessage(Wire(e.letter), e.session, now)
    else if e.letter == RecordingComplete then Tray.RecordingMessage(e.session, e.path)
    else
      Tray.TranscriptMessage(e.session, if file.Some? then Some(file.value.sessionId) else None,
                             if file.Some? then file.value.audioPath else "", TranscriptPath(e.session), "backend")
  }

  // What the composition does with an entry is what the tray's own loop does with its message.
  lemma TicksAreMessages(panel: Tray.Panel, e: Entry, now: nat, file: Option<Tray.LastCompleted>)
    ensures IsState(e.letter) ==> TakesState(panel, e, now) == Tray.Handle(panel, MessageOf(e, now, file))
    ensures e.letter == RecordingComplete ==>
              TakesRecording(panel, e) == Tray.Handle(panel, MessageOf(e, now, file))
    ensures e.letter == TranscriptComplete ==>
              TakesTranscript(panel, e, file) == Tray.Handle(panel, MessageOf(e, now, file))
    ensures TakesState(panel, e, now) != panel ==> IsState(e.letter)
    ensures TakesRecording(panel, e) != panel ==> e.letter == RecordingComplete
    ensures TakesTranscript(panel, e, file) != panel ==> e.letter == TranscriptComplete
  {
    hide TranscriptPath;
  }

  // ---- Convergence ---------------------------------------------------------------------------------

  /** Every session has come to its end, whichever it is. */
  ghost predicate Quiescent(d: State) {
    forall s | s in d.pcs :: Halted(d.pcs[s])
  }

  /** The tray shows that nothing is going on. */
  predicate Settled(panel: Tray.Panel) {
    AtRest(panel.icon) && panel.activeSessionId.None?
  }

  lemma WireIsExact(l: Letter)
    requires IsState(l)
    ensures AtRest(Tray.FromWire(Wire(l))) <==> l == Idle || l == Failed
  {
    Tray.HealthyIconsAreExact(Wire(l));
    assert "starting"[2] == 'a' && "stopping"[2] == 'o';
  }

  lemma StatusIsExact(seen: Option<SessionId>)
    ensures AtRest(Tray.FromWire(StatusWire(seen))) <==> seen.None?
  {
    Tray.HealthyIconsAreExact(StatusWire(seen));
  }

  // A session that ended with a signal said a terminal state; this is where.
  lemma TerminalOf(d: State, s: SessionId) returns (k: nat)
    requires WordsKept(d) && s in d.pcs && (d.pcs[s].Finished? || d.pcs[s].Rejected?)
    ensures k < |d.log| && d.log[k].session == s && (d.log[k].letter == Idle || d.log[k].letter == Failed)
  {
    var l := Failed;
    if d.pcs[s].Finished? {
      FinishedSaysTerminal(d.pcs[s].how);
      l := Terminal(d.pcs[s].how);
    } else {
      assert Word(Rejected)[3] == Failed;
    }
    assert l in Project(d.log, s);
    hide Project, Word, WordsKept;
    k := ProjectFinds(d.log, s, l);
  }

  // With every session halted, the last state signal in the log is a terminal one, or a leaked session's.
  lemma LastSignalIsTerminal(d: State, m: nat)
    requires WordsKept(d) && Quiescent(d) && m < |d.log| && IsState(d.log[m].letter)
    requires forall k | m < k < |d.log| :: !IsState(d.log[k].letter)
    ensures d.log[m].session in d.pcs
    ensures d.pcs[d.log[m].session].Leaked? <==> d.log[m].letter != Idle && d.log[m].letter != Failed
  {
    hide *;
    var s := d.log[m].session;
    SpokenBy(d, m);
    HaltedThere(d, s);
    if d.pcs[s].Finished? || d.pcs[s].Rejected? {
      var k := TerminalOf(d, s);
      NothingAfterTerminal(d, k, m);
      TerminalIsState(d.log[k].letter);
    } else {
      StuckSaysNoTerminal(d.pcs[s], d.log[m].letter);
    }
  }

  lemma HaltedThere(d: State, s: SessionId)
    requires Quiescent(d) && s in d.pcs
    ensures Halted(d.pcs[s])
  {
  }

  lemma TerminalIsState(l: Letter)
    requires l == Idle || l == Failed
    ensures IsState(l)
  {
  }

  lemma TerminalRanksLast(l: Letter, l': Letter)
    requires l == Idle || l == Failed
    ensures Rank(l') <= Rank(l)
  {
  }

  lemma NothingAfterTerminal(d: State, k: nat, m: nat)
    requires WordsKept(d) && k < |d.log| && m < |d.log| && d.log[k].session == d.log[m].session
    requires d.log[k].letter == Idle || d.log[k].letter == Failed
    ensures m <= k
  {
    hide WordsKept, Rank;
    if k < m {
      EntriesInOrder(d, k, m);
      TerminalRanksLast(d.log[k].letter, d.log[m].letter);
    }
  }

  lemma SpokenBy(d: State, m: nat)
    requires WordsKept(d) && m < |d.log|
    ensures d.log[m].session in d.pcs && d.log[m].letter in Word(d.pcs[d.log[m].session])
  {
    ProjectHas(d.log, m);
    hide Project, Word;
  }

  lemma StuckSaysNoTerminal(pc: Pc, l: Letter)
    requires Halted(pc) && !pc.Finished? && !pc.Rejected? && l in Word(pc) && IsState(l)
    ensures pc.Leaked? && l != Idle && l != Failed
  {
  }

  // A session seen in the slot, of which nothing was heard since, gave up silently or leaked the slot.
  lemma SeenIsStuck(d: State, p: Pump)
    requires WordsKept(d) && Quiescent(d) && SawHolder(d.log, d.pcs.Keys, p) && StatusRead(p.phase) && p.seen.Some?
    requires forall k | p.since <= k < |d.log| :: !IsState(d.log[k].letter)
    ensures p.seen.value in d.pcs && (d.pcs[p.seen.value].Silent? || d.pcs[p.seen.value].Leaked?)
  {
    var s := p.seen.value;
    forall k | 0 <= k < p.seenAt && d.log[k].session == s
      ensures d.log[k].letter != Idle && d.log[k].letter != Failed
    {
      assert d.log[..p.seenAt][k] == d.log[k];
    }
    if d.pcs[s].Finished? || d.pcs[s].Rejected? {
      var k := TerminalOf(d, s);
      assert IsState(d.log[k].letter);
    }
  }

  // Once the daemon is quiescent and a lossless connection has drained its state stream, the tray shows
  // idle or failed with no session, however old the signals it replayed over its snapshot. The two
  // exceptions are exact: the last signal it took is a leaked session's, or it took none and its
  // snapshot saw the slot held, by a session that has since given up silently or leaked.
  lemma TrayConverges(w: World)
    requires Emerges(w) && w.pump.phase.Live? && w.pump.lossless && w.pump.states == |w.d.log| && Quiescent(w.d)
    ensures
      var m := LastTaken(w.d.log, w.pump.since, |w.d.log|);
      && (m.Some? ==> w.d.log[m.value].session in w.d.pcs)
      && (Settled(w.panel) <==> if m.Some? then !w.d.pcs[w.d.log[m.value].session].Leaked? else w.pump.seen.None?)
      && (Settled(w.panel) && m.Some? ==> w.panel.recordingStartedAt.None?)
      // a session that leaked the slot stays on show, where it can be seen
      && (!Settled(w.panel) && m.Some? ==> w.panel.activeSessionId == Some(w.d.log[m.value].session))
    ensures !Settled(w.panel) ==> exists s :: s in w.d.pcs && (w.d.pcs[s].Silent? || w.d.pcs[s].Leaked?)
  {
    hide Emerges, Inv, OwnAudio, Wire, StatusWire, IsState, Quiescent, NotEnded;
    EmergesIsInv(w);
    InvKeepsWords(w.d);
    hide WordsKept;
    StatusIsExact(w.pump.seen);
    var m := LastTaken(w.d.log, w.pump.since, |w.d.log|);
    hide LastTaken;
    if m.Some? {
      WireIsExact(w.d.log[m.value].letter);
      LastSignalIsTerminal(w.d, m.value);
    } else if w.pump.seen.Some? {
      SeenIsStuck(w.d, w.pump);
    }
  }

  lemma InvKeepsWords(d: State)
    requires Inv(d)
    ensures WordsKept(d)
  {
    hide Domains, SlotOwned, HookOwned, GuardsCounted, TasksRegistered, StopsPrecise, WordsKept, LogOwned, PathsOwned;
  }
}
