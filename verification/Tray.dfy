/**
 The tray's picture of the daemon and the reducers that maintain it
 (`crates/zwhisper-tray/src/state.rs`), with the snapshot and the message loop of
 the pump (`crates/zwhisper-tray/src/pump.rs`).
 */
module Tray {
  import opened Wrappers

  datatype IconState = Idle | Starting | Recording | Stopping | Failed | DaemonOffline

  /** An unknown daemon state is shown as a failure. */
  function FromWire(s: string): IconState {
    if s == "idle" then Idle
    else if s == "starting" then Starting
    else if s == "recording" then Recording
    else if s == "stopping" then Stopping
    else Failed
  }

  /** `last-session.json` as the tray keeps it: empty fields become `None`. */
  datatype LastCompleted =
    LastCompleted(sessionId: string, audioPath: string, transcriptPath: Option<string>, backend: Option<string>)

  datatype ParseError = UnsupportedSchemaVersion(found: nat) | EmptyAudioPath | EmptySessionId

  function NonEmpty(s: string): Option<string> {
    if s == "" then None else Some(s)
  }

  function ParseLast(schemaVersion: nat, id: string, audio: string, transcript: string, backend: string)
    : Result<LastCompleted, ParseError>
  {
    if schemaVersion != 1 then Err(UnsupportedSchemaVersion(schemaVersion))
    else if audio == "" then Err(EmptyAudioPath)
    else Ok(LastCompleted(id, audio, NonEmpty(transcript), NonEmpty(backend)))
  }

  function ParseActive(schemaVersion: nat, id: string): Result<string, ParseError> {
    if schemaVersion != 1 then Err(UnsupportedSchemaVersion(schemaVersion))
    else if id == "" then Err(EmptySessionId)
    else Ok(id)
  }

  datatype PendingCmd = Start | Stop | SetActiveProfile(name: string) | OpenLastRecording | OpenLastTranscript

  /** `TrayState` without the profile list and the hotkey line. Instants are readings of one clock. */
  datatype Panel = Panel(
    icon: IconState,
    activeSessionId: Option<string>,
    recordingStartedAt: Option<nat>,
    lastSession: Option<LastCompleted>,
    pendingCmd: Option<PendingCmd>)

  // ---- The reducers, as functions --------------------------------------------------------

  predicate Answers(pending: PendingCmd, icon: IconState) {
    || (pending.Start? && (icon.Starting? || icon.Recording?))
    || (pending.Stop? && (icon.Stopping? || icon.Idle?))
  }

  function StateChanged(p: Panel, wire: string, id: string, now: nat): Panel {
    var icon := FromWire(wire);
    Panel(icon,
          if icon.Idle? || icon.Failed? then None else if id != "" then Some(id) else p.activeSessionId,
          if icon.Idle? || icon.Failed? then None
          else if icon.Recording? && p.recordingStartedAt.None? then Some(now)
          else p.recordingStartedAt,
          p.lastSession,
          if p.pendingCmd.Some? && Answers(p.pendingCmd.value, icon) then None else p.pendingCmd)
  }

  function RecordingComplete(p: Panel, id: string, audio: string): Panel {
    p.(lastSession := Some(LastCompleted(id, audio, None, None)))
  }

  /** The audio path: the state file's, else the cached one of the same session, else none. */
  function AudioOf(p: Panel, id: string, fromFile: Option<string>): string {
    if fromFile.Some? then fromFile.value
    else if p.lastSession.Some? && p.lastSession.value.sessionId == id then p.lastSession.value.audioPath
    else ""
  }

  function TranscriptComplete(p: Panel, id: string, fromFile: Option<string>, transcript: string, backend: string)
    : Panel
  {
    p.(lastSession := Some(LastCompleted(id, AudioOf(p, id, fromFile), Some(transcript), NonEmpty(backend))))
  }

  /** The snapshot taken after subscribing; `startedAt` is the status's estimate. */
  function Snapshot(p: Panel, wire: string, activeId: Option<string>, last: Option<LastCompleted>, startedAt: nat)
    : Panel
  {
    var icon := FromWire(wire);
    Panel(icon,
          if icon.Recording? || icon.Stopping? then (if activeId.Some? then activeId else p.activeSessionId) else None,
          if icon.Recording? then Some(startedAt) else p.recordingStartedAt,
          if last.Some? then last else p.lastSession,
          p.pendingCmd)
  }

  /** The pump has lost the connection; `left` if the daemon's name left the bus. */
  function Disconnected(p: Panel, left: bool): Panel {
    if left then p.(icon := DaemonOffline, activeSessionId := None, recordingStartedAt := None)
    else p.(icon := DaemonOffline)
  }

  // ---- One message at a time -----------------------------------------------------------------

  /**
     What wakes the loop: a message of one of the three streams, a transcript coming
     with what the state file then said; a signal that does not decode; a profile
     refresh; the daemon's name changing hands, `left` if nobody owns it now; a stream
     that closes; or shutdown.
   */
  datatype Message =
    | StateMessage(wire: string, id: string, now: nat)
    | RecordingMessage(id: string, audio: string)
    | TranscriptMessage(id: string, fileId: Option<string>, fileAudio: string, transcript: string, backend: string)
    | Undecodable
    | ProfileTick(refreshed: bool)
    | OwnerChanged(left: bool)
    | StreamClosed
    | Shutdown

  /** The loop returns: to reconnect, or for good. */
  predicate Ends(m: Message) {
    m.OwnerChanged? || m.StreamClosed? || m.Shutdown? || m == ProfileTick(false)
  }

  /** How many of the messages the loop takes, the one that ends it included. */
  function Taken(ms: seq<Message>): (n: nat)
    ensures n <= |ms|
    ensures forall k | 0 <= k < n - 1 :: !Ends(ms[k])
    ensures n < |ms| ==> n > 0 && Ends(ms[n - 1])
  {
    if ms == [] then 0 else if Ends(ms[0]) then 1 else 1 + Taken(ms[1..])
  }

  /** The state file counts only if it names the same session. */
  function FileAudio(m: Message): Option<string>
    requires m.TranscriptMessage?
  {
    if m.fileId == Some(m.id) then Some(m.fileAudio) else None
  }

  function Handle(p: Panel, m: Message): Panel {
    match m
    case StateMessage(wire, id, now) => StateChanged(p, wire, id, now)
    case RecordingMessage(id, audio) => RecordingComplete(p, id, audio)
    case TranscriptMessage(id, _, _, transcript, backend) =>
      TranscriptComplete(p, id, FileAudio(m), transcript, backend)
    case OwnerChanged(left) => if left then Disconnected(p, true) else p
    case _ => p
  }

  function HandleAll(p: Panel, ms: seq<Message>): Panel {
    if ms == [] then p else Handle(HandleAll(p, ms[..|ms| - 1]), ms[|ms| - 1])
  }

  class TrayState {
    var icon: IconState
    var activeSessionId: Option<string>
    var recordingStartedAt: Option<nat>
    var lastSession: Option<LastCompleted>
    var pendingCmd: Option<PendingCmd>

    ghost function View(): Panel
      reads this
    {
      Panel(icon, activeSessionId, recordingStartedAt, lastSession, pendingCmd)
    }

    constructor ()
      ensures View() == Panel(DaemonOffline, None, None, None, None)
    {
      icon, activeSessionId, recordingStartedAt, lastSession, pendingCmd := DaemonOffline, None, None, None, None;
    }

    method ApplyStateChanged(newState: string, sessionId: string, now: nat)
      modifies this
      ensures View() == StateChanged(old(View()), newState, sessionId, now)
      ensures icon == if newState == "idle" then Idle else if newState == "starting" then Starting
                      else if newState == "recording" then Recording else if newState == "stopping" then Stopping
                      else Failed
      // the session is kept while it is in flight, and forgotten when it ends
      ensures activeSessionId == if newState !in {"starting", "recording", "stopping"} then None
                                 else if sessionId != "" then Some(sessionId)
                                 else old(activeSessionId)
      // the timer is started once, and stopped when the session ends
      ensures recordingStartedAt
           == if newState == "recording" && old(recordingStartedAt).None? then Some(now)
              else if newState in {"starting", "recording", "stopping"} then old(recordingStartedAt)
              else None
      // a pending command is cleared by the states that answer it
      ensures pendingCmd == if (old(pendingCmd) == Some(Start) && newState in {"starting", "recording"})
                               || (old(pendingCmd) == Some(Stop) && newState in {"stopping", "idle"}) then None
                            else old(pendingCmd)
      ensures lastSession == old(lastSession)
    {
      var newIcon := FromWire(newState);
      match newIcon {
        case Recording =>
          if recordingStartedAt.None? {
            recordingStartedAt := Some(now);
          }
          if sessionId != "" {
            activeSessionId := Some(sessionId);
          }
        case Starting | Stopping =>
          if sessionId != "" {
            activeSessionId := Some(sessionId);
          }
        case Idle | Failed =>
          recordingStartedAt := None;
          activeSessionId := None;
        case DaemonOffline =>
      }
      icon := newIcon;
      if pendingCmd.Some? && Answers(pendingCmd.value, newIcon) {
        pendingCmd := None;
      }
    }

    method ApplyRecordingComplete(sessionId: string, audioPath: string)
      modifies this
      ensures View() == RecordingComplete(old(View()), sessionId, audioPath)
      ensures lastSession == Some(LastCompleted(sessionId, audioPath, None, None))
      ensures unchanged(`icon, `activeSessionId, `recordingStartedAt, `pendingCmd)
    {
      lastSession := Some(LastCompleted(sessionId, audioPath, None, None));
    }

    method ApplyTranscriptComplete(sessionId: string, fromFile: Option<string>, transcriptPath: string, backend: string)
      modifies this
      ensures View() == TranscriptComplete(old(View()), sessionId, fromFile, transcriptPath, backend)
      ensures lastSession.Some? && lastSession.value.sessionId == sessionId
      ensures lastSession.value.audioPath
           == if fromFile.Some? then fromFile.value
              else if old(lastSession).Some? && old(lastSession).value.sessionId == sessionId then
                old(lastSession).value.audioPath
              else ""
      ensures lastSession.value.transcriptPath == Some(transcriptPath)
      ensures lastSession.value.backend == if backend == "" then None else Some(backend)
      ensures unchanged(`icon, `activeSessionId, `recordingStartedAt, `pendingCmd)
    {
      var audioPath := "";
      match fromFile {
        case Some(path) => audioPath := path;
        case None =>
          if lastSession.Some? && lastSession.value.sessionId == sessionId {
            audioPath := lastSession.value.audioPath;
          }
      }
      lastSession := Some(LastCompleted(sessionId, audioPath, Some(transcriptPath),
                                        if backend == "" then None else Some(backend)));
    }

    method ApplySnapshot(wire: string, activeFileId: Option<string>, last: Option<LastCompleted>, startedAt: nat)
      modifies this
      ensures View() == Snapshot(old(View()), wire, activeFileId, last, startedAt)
      ensures icon == if wire == "idle" then Idle else if wire == "starting" then Starting
                      else if wire == "recording" then Recording else if wire == "stopping" then Stopping
                      else Failed
      ensures activeSessionId == if wire != "recording" && wire != "stopping" then None
                                 else if activeFileId.Some? then activeFileId
                                 else old(activeSessionId)
      ensures recordingStartedAt == if wire == "recording" then Some(startedAt) else old(recordingStartedAt)
      ensures lastSession == if last.Some? then last else old(lastSession)
      ensures pendingCmd == old(pendingCmd)
    {
      var newIcon := FromWire(wire);
      // the active-session file is consulted only mid-recording
      var active := if newIcon == Recording || newIcon == Stopping then activeFileId else None;
      icon := newIcon;
      if newIcon == Recording {
        recordingStartedAt := Some(startedAt);
      }
      if active.Some? {
        activeSessionId := active;
      } else if newIcon != Recording && newIcon != Stopping {
        activeSessionId := None;
      }
      if last.Some? {
        lastSession := last;
      }
    }

    /** The daemon's name has no owner any more. */
    method LoseDaemon()
      modifies this
      ensures View() == Disconnected(old(View()), true)
      ensures icon == DaemonOffline && activeSessionId.None? && recordingStartedAt.None?
      ensures unchanged(`lastSession, `pendingCmd)
    {
      icon := DaemonOffline;
      activeSessionId := None;
      recordingStartedAt := None;
    }

    /** One branch of the loop; `goesOn` unless it returns. */
    method Serve(m: Message) returns (goesOn: bool)
      modifies this
      ensures View() == Handle(old(View()), m) && goesOn == !Ends(m)
      // the daemon leaving the bus clears the face; every other end, and what does not decode, leaves it
      ensures m.OwnerChanged? && m.left ==>
                icon == DaemonOffline && activeSessionId.None? && recordingStartedAt.None?
                && lastSession == old(lastSession) && pendingCmd == old(pendingCmd)
      ensures m.Undecodable? || m.ProfileTick? || m.StreamClosed? || m.Shutdown? || (m.OwnerChanged? && !m.left) ==>
                View() == old(View())
      ensures goesOn <==> match m
                          case OwnerChanged(_) => false
                          case StreamClosed => false
                          case Shutdown => false
                          case ProfileTick(refreshed) => refreshed
                          case _ => true
    {
      goesOn := true;
      match m {
        case StateMessage(wire, id, now) =>
          ApplyStateChanged(wire, id, now);
        case RecordingMessage(id, audio) =>
          ApplyRecordingComplete(id, audio);
        case TranscriptMessage(id, fileId, fileAudio, transcript, backend) =>
          var fromFile := if fileId == Some(id) then Some(fileAudio) else None;
          ApplyTranscriptComplete(id, fromFile, transcript, backend);
        case Undecodable =>
        case ProfileTick(refreshed) =>
          goesOn := refreshed;
        case OwnerChanged(left) =>
          if left {
            LoseDaemon();
          }
          goesOn := false;
        case StreamClosed =>
          goesOn := false;
        case Shutdown =>
          goesOn := false;
      }
    }

    /**
     The multiplexing loop, over what wakes it in the order it is served, until
     something ends it: `reconnect` unless that was shutdown, or nothing did.
     */
    method Multiplex(inbox: seq<Message>) returns (taken: nat, reconnect: bool)
      modifies this
      ensures taken == Taken(inbox) && View() == HandleAll(old(View()), inbox[..taken])
      ensures reconnect <==> taken > 0 && Ends(inbox[taken - 1]) && !inbox[taken - 1].Shutdown?
    {
      hide Handle, Ends;
      taken := 0;
      assert inbox[0..] == inbox;
      while taken < |inbox|
        invariant taken <= |inbox| && Taken(inbox) == taken + Taken(inbox[taken..])
        invariant View() == HandleAll(old(View()), inbox[..taken])
        invariant taken > 0 ==> !Ends(inbox[taken - 1])
      {
        assert inbox[..taken + 1][..taken] == inbox[..taken];
        assert inbox[taken..][0] == inbox[taken] && inbox[taken..][1..] == inbox[taken + 1..];
        var goesOn := Serve(inbox[taken]);
        taken := taken + 1;
        if !goesOn {
          reconnect := !inbox[taken - 1].Shutdown?;
          return;
        }
      }
      reconnect := false;
    }
  }

  // ---- What the reducers mean ------------------------------------------------------------------

  // Each healthy icon comes from exactly one daemon state, so an unknown one never appears healthy.
  lemma HealthyIconsAreExact(s: string)
    ensures FromWire(s).Idle? <==> s == "idle"
    ensures FromWire(s).Starting? <==> s == "starting"
    ensures FromWire(s).Recording? <==> s == "recording"
    ensures FromWire(s).Stopping? <==> s == "stopping"
    ensures FromWire(s) != DaemonOffline
  {
    assert "starting"[2] == 'a' && "stopping"[2] == 'o';
  }

  // The transcript's audio path is its own session's or none, whatever the cache and the file hold.
  lemma NeverAnothersAudio(p: Panel, m: Message, pathOf: string -> string)
    requires m.TranscriptMessage?
    requires m.fileId.Some? ==> m.fileAudio == pathOf(m.fileId.value)
    requires p.lastSession.Some? ==> p.lastSession.value.audioPath in {"", pathOf(p.lastSession.value.sessionId)}
    ensures
      var last := Handle(p, m).lastSession.value;
      && last.sessionId == m.id && last.audioPath in {"", pathOf(m.id)}
      && (m.fileId == Some(m.id) ==> last.audioPath == pathOf(m.id))
  {
  }

  /** What moves the face of the panel: the state stream, and the daemon leaving. */
  predicate OfState(m: Message) {
    m.StateMessage? || m.OwnerChanged?
  }

  /** What moves the last session: the two completion streams. */
  predicate OfCompletion(m: Message) {
    m.RecordingMessage? || m.TranscriptMessage?
  }

  function States(ms: seq<Message>): seq<Message> {
    if ms == [] then []
    else States(ms[..|ms| - 1]) + (if OfState(ms[|ms| - 1]) then [ms[|ms| - 1]] else [])
  }

  function Completions(ms: seq<Message>): seq<Message> {
    if ms == [] then []
    else Completions(ms[..|ms| - 1]) + (if OfCompletion(ms[|ms| - 1]) then [ms[|ms| - 1]] else [])
  }

  lemma {:induction false} HandleSnoc(p: Panel, ms: seq<Message>, m: Message)
    ensures HandleAll(p, ms + [m]) == Handle(HandleAll(p, ms), m)
  {
    assert (ms + [m])[..|ms|] == ms;
  }

  // The streams do not interfere: the panel is what the state stream alone makes of it, but for the last
  // session, which is what the completion streams alone make of it.
  lemma {:induction false} StreamsAreIndependent(p: Panel, ms: seq<Message>)
    ensures HandleAll(p, ms) == HandleAll(p, States(ms)).(lastSession := HandleAll(p, Completions(ms)).lastSession)
  {
    if ms != [] {
      var init, m := ms[..|ms| - 1], ms[|ms| - 1];
      StreamsAreIndependent(p, init);
      OneStreamMoves(HandleAll(p, States(init)), HandleAll(p, Completions(init)), m);
      HandleSnoc(p, States(init), m);
      HandleSnoc(p, Completions(init), m);
      assert Completions(init) + [] == Completions(init) && States(init) + [] == States(init);
      hide Handle;
    }
  }

  lemma OneStreamMoves(p: Panel, q: Panel, m: Message)
    ensures Handle(p.(lastSession := q.lastSession), m)
         == if OfState(m) then Handle(p, m).(lastSession := q.lastSession)
            else if OfCompletion(m) then p.(lastSession := Handle(q, m).lastSession)
            else p.(lastSession := q.lastSession)
  {
    hide FromWire, Answers;
  }

  // The order in which the loop serves the streams does not matter to the panel it ends with.
  lemma StreamOrderIsIrrelevant(p: Panel, ms: seq<Message>, ms': seq<Message>)
    requires States(ms) == States(ms') && Completions(ms) == Completions(ms')
    ensures HandleAll(p, ms) == HandleAll(p, ms')
  {
    StreamsAreIndependent(p, ms);
    StreamsAreIndependent(p, ms');
  }

  // Entering "recording" starts the timer afresh only if no timer was left running: a reconnect that did
  // not see the daemon's name go keeps the old one, and so does an idle snapshot.
  lemma TimerRestartsIff(p: Panel, left: bool, activeId: Option<string>, last: Option<LastCompleted>,
                         startedAt: nat, id: string, now: nat)
    ensures
      var reconnected := Snapshot(Disconnected(p, left), "idle", activeId, last, startedAt);
      StateChanged(reconnected, "recording", id, now).recordingStartedAt == Some(now)
      <==> left || p.recordingStartedAt.None? || p.recordingStartedAt == Some(now)
  {
    HealthyIconsAreExact("idle");
    HealthyIconsAreExact("recording");
  }
}
