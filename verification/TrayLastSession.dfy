/**
 What the tray's last session comes to. Two streams move it, which the loop serves in any
 order relative to each other, so a late transcript of one session can replace the newer
 recording of another, and a late recording hides its own session's transcript.
 */
module TrayLastSession {
  import opened Wrappers
  import opened SessionManagers
  import opened Protocol
  import opened ProtocolProofs
  import opened TrayPump
  import Tray
  import TrayExceptions
  import Walks

  /**
     What a run of daemon and tray has done to the last session since it connected: where
     the completion streams were opened, the last-session file the snapshot read and what
     it left, the completion handled last, and whether a message of those streams was lost.
   */
  datatype Memory = Memory(
    recordingsFrom: nat, transcriptsFrom: nat,
    file: Option<LastFile>, shown: Option<Tray.LastCompleted>, latest: Option<nat>,
    lossless: bool)

  /** What the snapshot makes of the file it read: shown if it is of this version and has audio. */
  function SnapshotOf(file: Option<LastFile>, before: Option<Tray.LastCompleted>): Option<Tray.LastCompleted> {
    if file.Some? && file.value.schemaVersion == 1 && file.value.audioPath != "" then
      var f := file.value;
      Some(Tray.LastCompleted(f.sessionId, f.audioPath,
                              if f.transcriptPath == "" then None else Some(f.transcriptPath),
                              if f.backend == "" then None else Some(f.backend)))
    else before
  }

  function Remember(m: Memory, w: World, t: Tick): Memory
    requires Could(w, t)
  {
    match t
    case Open(StateStream) => Memory(|w.d.log|, |w.d.log|, None, None, None, true)
    case Open(RecordingStream) => m.(recordingsFrom := |w.d.log|)
    case Open(TranscriptStream) => m.(transcriptsFrom := |w.d.log|)
    case ReadLast(ok) => m.(file := if ok then w.d.last else None)
    case Show(_) => m.(shown := SnapshotOf(m.file, w.panel.lastSession))
    case TakeRecording =>
      if w.d.log[w.pump.recordings].letter == RecordingComplete then m.(latest := Some(w.pump.recordings)) else m
    case TakeTranscript(_) =>
      if w.d.log[w.pump.transcripts].letter == TranscriptComplete then m.(latest := Some(w.pump.transcripts)) else m
    case Lose(stream) => m.(lossless := m.lossless && stream.StateStream?)
    case _ => m
  }

  ghost function Follow(m: Memory, w: World, ts: seq<Tick>): Memory
    decreases |ts|
  {
    if ts == [] || !Could(w, ts[0]) then m else Follow(Remember(m, w, ts[0]), Happen(w, ts[0]), ts[1..])
  }

  /** Some run of daemon and tray has come to `w` and is remembered as `m`. */
  ghost predicate Followed(w: World, m: Memory) {
    exists w0, m0, ts :: Starts(w0) && Trace(w0, ts, w) && m == Follow(m0, w0, ts)
  }

  ghost predicate NoneIn(log: seq<Entry>, l: Letter, from: nat, upTo: nat) {
    forall k | from <= k < upTo && k < |log| :: log[k].letter != l
  }

  /** Where the streams are, and which completion was the last of its kind they brought. */
  ghost predicate Tracked(log: seq<Entry>, p: Pump, m: Memory) {
    && m.recordingsFrom <= p.recordings <= |log| && m.transcriptsFrom <= p.transcripts <= |log|
    && match m.latest
       case None =>
         m.lossless ==> && NoneIn(log, RecordingComplete, m.recordingsFrom, p.recordings)
                        && NoneIn(log, TranscriptComplete, m.transcriptsFrom, p.transcripts)
       case Some(k) =>
         && k < |log|
         && if log[k].letter == RecordingComplete then
              && m.recordingsFrom <= k < p.recordings
              && (m.lossless ==> NoneIn(log, RecordingComplete, k + 1, p.recordings))
            else
              && log[k].letter == TranscriptComplete && m.transcriptsFrom <= k < p.transcripts
              && (m.lossless ==> NoneIn(log, TranscriptComplete, k + 1, p.transcripts))
  }

  /** The panel's last session is that completion's, or the snapshot's. */
  ghost predicate ShowsLatest(log: seq<Entry>, last: Option<Tray.LastCompleted>, m: Memory) {
    match m.latest
    case None => last == m.shown
    case Some(k) =>
      && k < |log| && last.Some? && last.value.sessionId == log[k].session
      && (log[k].letter == RecordingComplete ==>
            last.value == Tray.LastCompleted(log[k].session, OutputPath(log[k].session), None, None))
      && (log[k].letter == TranscriptComplete ==> last.value.transcriptPath == Some(TranscriptPath(log[k].session)))
  }

  /** What the pump has kept of the file it read. */
  predicate ReadAs(last: Option<Tray.LastCompleted>, file: Option<LastFile>) {
    last == SnapshotOf(file, None)
  }

  ghost predicate MemoryInv(log: seq<Entry>, panel: Tray.Panel, p: Pump, m: Memory) {
    !p.phase.Offline? ==>
      && Tracked(log, p, m)
      && (p.phase.Live? ==> ShowsLatest(log, panel.lastSession, m))
      && (p.phase.SawLast? || p.phase.SawActive? ==> ReadAs(p.last, m.file))
      && (!p.phase.Live? ==>
            m.latest.None? && (m.lossless ==> m.recordingsFrom == p.recordings && m.transcriptsFrom == p.transcripts))
  }

  // ---- One tick keeps it ---------------------------------------------------------------------

  lemma GrowthKeepsMemory(log: seq<Entry>, log': seq<Entry>, panel: Tray.Panel, p: Pump, m: Memory)
    requires MemoryInv(log, panel, p, m) && log <= log'
    ensures MemoryInv(log', panel, p, m)
  {
    hide OutputPath, TranscriptPath;
  }

  lemma TakeRecordingKeepsMemory(w: World, m: Memory)
    requires MemoryInv(w.d.log, w.panel, w.pump, m) && Could(w, TakeRecording)
    requires var e := w.d.log[w.pump.recordings]; e.letter == RecordingComplete ==> e.path == OutputPath(e.session)
    ensures var w' := Happen(w, TakeRecording);
            MemoryInv(w.d.log, w'.panel, w'.pump, Remember(m, w, TakeRecording))
  {
    hide OutputPath, TranscriptPath;
  }

  lemma TakeTranscriptKeepsMemory(w: World, m: Memory, ok: bool)
    requires MemoryInv(w.d.log, w.panel, w.pump, m) && Could(w, TakeTranscript(ok))
    ensures var w' := Happen(w, TakeTranscript(ok));
            MemoryInv(w.d.log, w'.panel, w'.pump, Remember(m, w, TakeTranscript(ok)))
  {
    hide OutputPath, TranscriptPath, ReadIf;
  }

  lemma OtherTicksKeepMemory(w: World, m: Memory, t: Tick)
    requires MemoryInv(w.d.log, w.panel, w.pump, m) && Could(w, t)
    requires !t.Daemon? && !t.TakeRecording? && !t.TakeTranscript?
    ensures var w' := Happen(w, t); w'.d == w.d && MemoryInv(w.d.log, w'.panel, w'.pump, Remember(m, w, t))
  {
    FileIsRead(w.d.last);
    hide OutputPath, TranscriptPath, ReadLastFile, ReadActiveFile, Do, Enabled;
  }

  lemma TickKeepsMemory(w: World, m: Memory, t: Tick)
    requires TrayInv(w) && MemoryInv(w.d.log, w.panel, w.pump, m) && Could(w, t)
    ensures var w' := Happen(w, t); MemoryInv(w'.d.log, w'.panel, w'.pump, Remember(m, w, t))
  {
    hide MemoryInv, Inv, PumpInv, Do, Enabled, PathsOwned, OutputPath, LastFileIsOwn;
    if t.Daemon? {
      StepAppends(w.d, t.e);
      GrowthKeepsMemory(w.d.log, Do(w.d, t.e).log, w.panel, w.pump, m);
    } else if t.TakeRecording? {
      InvOwnsPaths(w.d);
      TakeRecordingKeepsMemory(w, m);
    } else if t.TakeTranscript? {
      TakeTranscriptKeepsMemory(w, m, t.ok);
    } else {
      OtherTicksKeepMemory(w, m, t);
    }
  }

  lemma {:induction false} TraceKeepsMemory(w: World, m: Memory, ts: seq<Tick>, w': World)
    requires TrayInv(w) && MemoryInv(w.d.log, w.panel, w.pump, m) && Trace(w, ts, w')
    ensures var m' := Follow(m, w, ts); TrayInv(w') && MemoryInv(w'.d.log, w'.panel, w'.pump, m')
    decreases |ts|
  {
    hide MemoryInv, TrayInv, Happen, Could, Remember;
    if ts != [] {
      TickKeepsTray(w, ts[0]);
      TickKeepsMemory(w, m, ts[0]);
      TraceKeepsMemory(Happen(w, ts[0]), Remember(m, w, ts[0]), ts[1..], w');
    }
  }

  lemma FollowedIsInv(w: World, m: Memory)
    requires Followed(w, m)
    ensures TrayInv(w) && MemoryInv(w.d.log, w.panel, w.pump, m)
  {
    var w0, m0, ts :| Starts(w0) && Trace(w0, ts, w) && m == Follow(m0, w0, ts);
    assert MemoryInv(w0.d.log, w0.panel, w0.pump, m0);
    hide MemoryInv, TrayInv, Follow;
    StartHolds(w0);
    TraceKeepsMemory(w0, m0, ts, w);
  }

  lemma StartHolds(w: World)
    requires Starts(w)
    ensures TrayInv(w)
  {
    hide Starts, Inv;
    assert Trace(w, [], w) && Emerges(w);
    EmergesIsInv(w);
  }

  // ---- What follows ------------------------------------------------------------------------------

  /** The last completion of its kind that the stream brings. */
  function LastOf(log: seq<Entry>, l: Letter, from: nat): (r: Option<nat>)
    ensures r.Some? ==> from <= r.value < |log| && log[r.value].letter == l
    ensures forall k | from <= k < |log| && log[k].letter == l :: r.Some? && k <= r.value
    decreases |log|
  {
    if |log| <= from then None
    else if log[|log| - 1].letter == l then Some(|log| - 1)
    else LastOf(log[..|log| - 1], l, from)
  }

  // With the completion streams drained and nothing of them lost, the last session is that of the last
  // recording or of the last transcript, whichever was handled later. So it is the newest recording's
  // unless another session's transcript was handled after it; its transcript is shown exactly if that
  // was handled later; and with no completion since the connection it is the snapshot's.
  lemma LastSessionConverges(w: World, m: Memory)
    requires Followed(w, m) && w.pump.phase.Live? && m.lossless
    requires w.pump.recordings == |w.d.log| && w.pump.transcripts == |w.d.log|
    ensures
      var r := LastOf(w.d.log, RecordingComplete, m.recordingsFrom);
      var t := LastOf(w.d.log, TranscriptComplete, m.transcriptsFrom);
      var last := w.panel.lastSession;
      && (m.latest == r || m.latest == t)
      && (m.latest.None? <==> r.None? && t.None?)
      && (m.latest.None? ==> last == m.shown)
      && (r.Some? ==>
            && last.Some?
            && (last.value.sessionId == w.d.log[r.value].session
                <==> m.latest == r || w.d.log[t.value].session == w.d.log[r.value].session))
      && (m.latest.Some? ==> last.Some? && (last.value.transcriptPath.Some? <==> m.latest == t))
  {
    hide OutputPath, TranscriptPath, TrayInv, LastOf, Followed;
    FollowedIsInv(w, m);
  }

  // ---- A run in which it is an older session's ------------------------------------------------------

  lemma {:induction false} FollowSnoc(w: World, m: Memory, ts: seq<Tick>, w1: World, t: Tick)
    requires Trace(w, ts, w1) && Could(w1, t)
    ensures Trace(w, ts + [t], Happen(w1, t))
    ensures Follow(m, w, ts + [t]) == Remember(Follow(m, w, ts), w1, t)
    decreases |ts|
  {
    hide Happen, Could, Remember;
    if ts == [] {
      assert ts + [t] == [t] && [t][1..] == [];
    } else {
      assert (ts + [t])[0] == ts[0] && (ts + [t])[1..] == ts[1..] + [t];
      FollowSnoc(Happen(w, ts[0]), Remember(m, w, ts[0]), ts[1..], w1, t);
    }
  }

  lemma FollowStep(w: World, m: Memory, t: Tick)
    requires Followed(w, m) && Could(w, t)
    ensures Followed(Happen(w, t), Remember(m, w, t))
  {
    hide Happen, Could, Starts, Remember, Trace, Follow;
    var w0, m0, ts :| Starts(w0) && Trace(w0, ts, w) && m == Follow(m0, w0, ts);
    FollowSnoc(w0, m0, ts, w, t);
  }

  // A tray beside a daemon in any state it can be in opens its streams, loses nothing, and goes live.
  lemma LiveBeside(d: State) returns (w: World, m: Memory)
    requires Reachable(d)
    ensures Followed(w, m) && w.d == d && w.pump.phase.Live? && m.lossless
    ensures m.recordingsFrom == m.transcriptsFrom == w.pump.recordings == w.pump.transcripts == |d.log|
  {
    hide Reachable, Followed;
    w, m := FollowedBeside(d);
    FollowStep(w, m, Open(StateStream));
    w, m := Happen(w, Open(StateStream)), Remember(m, w, Open(StateStream));
    FollowStep(w, m, Open(RecordingStream));
    w, m := Happen(w, Open(RecordingStream)), Remember(m, w, Open(RecordingStream));
    FollowStep(w, m, Open(TranscriptStream));
    w, m := Happen(w, Open(TranscriptStream)), Remember(m, w, Open(TranscriptStream));
    FollowStep(w, m, AskStatus);
    w, m := Happen(w, AskStatus), Remember(m, w, AskStatus);
    w, m := Snapshotted(w, m);
  }

  lemma Snapshotted(w: World, m: Memory) returns (w': World, m': Memory)
    requires Followed(w, m) && w.pump.phase.SawStatus?
    ensures Followed(w', m') && w'.d == w.d && w'.pump.phase.Live? && m' == m.(file := m'.file, shown := m'.shown)
    ensures w'.pump.recordings == w.pump.recordings && w'.pump.transcripts == w.pump.transcripts
  {
    hide Followed, Shown, ReadActiveFile, ReadIf;
    FollowStep(w, m, ReadLast(true));
    w', m' := Happen(w, ReadLast(true)), Remember(m, w, ReadLast(true));
    FollowStep(w', m', ReadActive(true));
    w', m' := Happen(w', ReadActive(true)), Remember(m', w', ReadActive(true));
    FollowStep(w', m', Show(0));
    w', m' := Happen(w', Show(0)), Remember(m', w', Show(0));
  }

  lemma FollowedBeside(d: State) returns (w: World, m: Memory)
    requires Reachable(d)
    ensures Followed(w, m) && w.d == d && w.pump.phase.Offline?
  {
    hide Reachable, Starts, Trace, Follow;
    w := TrayExceptions.Beside(d);
    var w0, ts :| Starts(w0) && Trace(w0, ts, w);
    m := Follow(Memory(0, 0, None, None, None, true), w0, ts);
  }

  // The daemon's session `id` says what it is about to say.
  lemma Says(w: World, m: Memory, id: SessionId, letter: Letter) returns (w': World)
    requires Followed(w, m) && id in w.d.pcs && id in w.d.infos && id in w.d.reasons
    requires !Halted(w.d.pcs[id]) && !w.d.pcs[id].Listening?
    requires Instr(w.d.pcs[id], w.d.infos[id].auto, Proceed).0 == Say(letter)
    ensures Followed(w', m) && w'.pump == w.pump && w'.d.infos == w.d.infos && w'.d.reasons == w.d.reasons
    ensures forall t | t in w.d.pcs && t != id :: t in w'.d.pcs && w'.d.pcs[t] == w.d.pcs[t]
    ensures |w'.d.log| == |w.d.log| + 1 && w.d.log <= w'.d.log
    ensures w'.d.log[|w.d.log|].letter == letter && w'.d.log[|w.d.log|].session == id
  {
    hide Followed, Instr, Halted;
    FollowStep(w, m, Daemon(Advance(id, Proceed)));
    w' := w.(d := TaskAdvances(w.d, id, Proceed));
  }

  // The tray drains both completion streams, recordings first, of the two entries they have left.
  lemma Drained(w: World, m: Memory) returns (w': World, m': Memory)
    requires Followed(w, m) && w.pump.phase.Live? && |w.d.log| >= 2
    requires w.pump.recordings == w.pump.transcripts == |w.d.log| - 2
    requires w.d.log[|w.d.log| - 2].letter == RecordingComplete && w.d.log[|w.d.log| - 1].letter == TranscriptComplete
    ensures Followed(w', m') && w'.d == w.d && w'.pump.phase.Live?
    ensures w'.pump.recordings == w'.pump.transcripts == |w.d.log|
    ensures m' == m.(latest := Some(|w.d.log| - 1))
  {
    hide Followed, TakesRecording, TakesTranscript, ReadIf;
    FollowStep(w, m, TakeRecording);
    w', m' := Happen(w, TakeRecording), Remember(m, w, TakeRecording);
    FollowStep(w', m', TakeRecording);
    w', m' := Happen(w', TakeRecording), Remember(m', w', TakeRecording);
    FollowStep(w', m', TakeTranscript(true));
    w', m' := Happen(w', TakeTranscript(true)), Remember(m', w', TakeTranscript(true));
    FollowStep(w', m', TakeTranscript(true));
    w', m' := Happen(w', TakeTranscript(true)), Remember(m', w', TakeTranscript(true));
  }

  // A transcription ends.
  lemma Delivered(d: State, id: SessionId) returns (d': State)
    requires Walks.Task(d, id, JobSubmitted) && d.startLock.None? && d.mgr.slot.None?
    ensures Walks.Task(d', id, TranscriptSaved) && Walks.Alone(d, id, d') && d'.startLock.None? && d'.mgr.slot.None?
  {
    hide Reachable;
    d' := Walks.Advanced(d, id, JobSubmitted, Proceed);
    d' := Walks.Advanced(d', id, TranscriptReady, Proceed);
  }

  // One session's transcript is about to be announced, and a second call is waiting.
  lemma FirstAboutToSay() returns (d: State)
    ensures Reachable(d) && d.pcs == map["a" := TranscriptSaved] && d.waiting == 1
    ensures d.startLock.None? && d.mgr.slot.None?
  {
    hide Reachable, Walks.Task;
    d := Walks.Called(2);
    d := Walks.BegunToSaved(d, "a");
    d := Walks.Transcribed(d, "a");
    d := Delivered(d, "a");
    TaskIsThere(d, "a", TranscriptSaved);
  }

  lemma TaskIsThere(d: State, id: SessionId, pc: Pc)
    requires Walks.Task(d, id, pc)
    ensures Reachable(d) && id in d.pcs && d.pcs[id] == pc
  {
    hide Reachable;
  }

  // A recording about to be announced while another session's transcript is.
  lemma BothAboutToSay() returns (d: State)
    ensures Reachable(d) && "a" in d.pcs && "bb" in d.pcs && d.pcs.Keys == d.infos.Keys && d.pcs.Keys == d.reasons.Keys
    ensures d.pcs["a"] == TranscriptSaved && d.pcs["bb"] == LastWritten(true)
  {
    hide Reachable;
    d := FirstAboutToSay();
    d := Walks.BegunToSaved(d, "bb");
    Walks.CallsAreCounted(d);
  }

  // The newest recording is one session's, nothing was lost, and the tray shows another.
  lemma OlderSessionIsShown() returns (w: World, m: Memory, r: nat)
    ensures Followed(w, m) && w.pump.phase.Live? && m.lossless
    ensures w.pump.recordings == |w.d.log| && w.pump.transcripts == |w.d.log|
    ensures LastOf(w.d.log, RecordingComplete, m.recordingsFrom) == Some(r)
    ensures w.panel.lastSession.Some? && w.panel.lastSession.value.sessionId != w.d.log[r].session
  {
    hide Reachable, Followed, LastOf;
    var d := BothAboutToSay();
    w, m := LiveBeside(d);
    w := Says(w, m, "bb", RecordingComplete);
    w := Says(w, m, "a", TranscriptComplete);
    w, m := Drained(w, m);
    r := |w.d.log| - 2;
    LastSessionConverges(w, m);
  }
}
