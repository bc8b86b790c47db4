/**
 The ordering rule of `crates/zwhisperd/src/last_session.rs`: the last-session file is
 on disk before the signal that announces it. Sessions overlap, so it may be replaced
 in between; here is by whom, when, and that in runs that have not overlapped and whose
 writes succeed it is there when the signal is emitted.
 */
module FilesBeforeSignals {
  import opened Wrappers
  import opened SessionManagers
  import opened Protocol
  import opened ProtocolProofs
  import opened NoOverlap
  import Walks

  // ---- In every run -----------------------------------------------------------------------

  ghost predicate Names(d: State, s: SessionId) {
    d.last.Some? && d.last.value.sessionId == s
  }

  /** About to write the last-session file. */
  predicate Saving(pc: Pc) {
    pc.StoppingSent? || pc.DrainedErr? || pc.TranscriptReady?
  }

  /** The step writes the last-session file. */
  predicate Saves(d: State, e: Event) {
    e.Advance? && e.choice == Proceed && e.id in d.pcs && Saving(d.pcs[e.id])
  }

  lemma AdvanceSaves(d: State, id: SessionId, c: Choice)
    requires Enabled(d, Advance(id, c))
    ensures var d' := TaskAdvances(d, id, c);
            if c == Proceed && Saving(d.pcs[id]) then Names(d', id) else d'.last == d.last
  {
  }

  lemma OthersDoNotSave(d: State, e: Event)
    requires Enabled(d, e) && !e.Advance?
    ensures Do(d, e).last == d.last
  {
    hide HasRecorder;
  }

  // A successful save puts the file under its session's name, and no other step touches it.
  lemma SaveNames(d: State, e: Event)
    requires Enabled(d, e)
    ensures if Saves(d, e) then Names(Do(d, e), e.id) else Do(d, e).last == d.last
  {
    hide Saving, Names, TaskAdvances;
    if e.Advance? {
      AdvanceSaves(d, e.id, e.choice);
    } else {
      hide Do;
      OthersDoNotSave(d, e);
    }
  }

  lemma SaversBeforeRelease(d: State, s: SessionId, t: SessionId)
    requires SlotOwned(d) && s in d.pcs && t in d.pcs && s != t && d.pcs[s].LastWritten?
    ensures !d.pcs[t].StoppingSent? && !d.pcs[t].DrainedErr? && !d.pcs[t].CompleteSent?
  {
    assert HoldsSlot(d.pcs[s]);
    assert !HoldsSlot(d.pcs[t]);
  }

  // Between the save of a recording and its RecordingComplete, the file stops naming the session exactly on
  // another session's successful write of its transcript: everyone else who saves holds the slot.
  lemma RecordingFileStops(d: State, e: Event, s: SessionId)
    requires SlotOwned(d) && Enabled(d, e) && s in d.pcs && d.pcs[s].LastWritten? && Names(d, s)
    ensures !Names(Do(d, e), s)
       <==> e.Advance? && e.choice == Proceed && e.id != s && d.pcs[e.id].TranscriptReady?
  {
    hide Do, SlotOwned;
    SaveNames(d, e);
    if e.Advance? && e.id != s {
      SaversBeforeRelease(d, s, e.id);
    }
  }

  // Between the save of a transcript and its TranscriptComplete, exactly on another session's save.
  lemma TranscriptFileStops(d: State, e: Event, s: SessionId)
    requires Enabled(d, e) && s in d.pcs && d.pcs[s].TranscriptSaved? && Names(d, s)
    ensures !Names(Do(d, e), s) <==> Saves(d, e)
    ensures Saves(d, e) ==> e.id != s
  {
    hide Do;
    SaveNames(d, e);
  }

  /** The session is between its release and the write of its transcript. */
  predicate Transcribing(d: State, t: SessionId) {
    t in d.pcs && t in d.infos
    && ((d.pcs[t] == Released(true) && d.infos[t].auto) || d.pcs[t].JobSubmitted? || d.pcs[t].TranscriptReady?)
  }

  ghost predicate NoOtherTranscribing(d: State, s: SessionId) {
    forall t | t in d.pcs && t != s :: !Transcribing(d, t)
  }

  /** The task of `s` takes none of these steps. */
  ghost predicate Waits(es: seq<Event>, s: SessionId) {
    forall e | e in es :: e.Advance? ==> e.id != s
  }

  /** Whatever happens until `s` itself moves, the file keeps naming it. */
  ghost predicate FileHolds(d: State, s: SessionId) {
    forall es, d' :: Path(d, es, d') && Waits(es, s) ==> Names(d', s)
  }

  lemma InstrTranscribes(pc: Pc, auto: bool, c: Choice)
    requires !Halted(pc)
    ensures var next := Instr(pc, auto, c).1;
            next == Released(true) || next.JobSubmitted? || next.TranscriptReady? ==>
              || pc == CompleteSent(true) || (pc == Released(true) && auto) || pc.JobSubmitted? || pc.TranscriptReady?
  {
  }

  // Only the holder of the slot can come to be transcribing, and that is `s`.
  lemma NoneStartsTranscribing(d: State, e: Event, s: SessionId)
    requires Inv(d) && Enabled(d, e) && (e.Advance? ==> e.id != s)
    requires s in d.pcs && d.pcs[s].LastWritten? && NoOtherTranscribing(d, s)
    ensures var d' := Do(d, e); s in d'.pcs && d'.pcs[s] == d.pcs[s] && NoOtherTranscribing(d', s)
  {
    hide Inv, SlotOwned, GuardsCounted, WordsKept, TaskAdvances;
    InvParts(d);
    InvHasDomains(d);
    if e.Advance? {
      NoneAdvancesToTranscribing(d, e.id, e.choice, s);
    } else {
      hide Do;
      OtherStepsKeepPcs(d, e);
    }
  }

  lemma NoneAdvancesToTranscribing(d: State, t: SessionId, c: Choice, s: SessionId)
    requires SlotOwned(d) && Enabled(d, Advance(t, c)) && t != s
    requires s in d.pcs && d.pcs[s].LastWritten? && NoOtherTranscribing(d, s)
    ensures var d' := TaskAdvances(d, t, c); s in d'.pcs && d'.pcs[s] == d.pcs[s] && NoOtherTranscribing(d', s)
  {
    hide SlotOwned, Instr, After;
    var (act, next) := Instr(d.pcs[t], d.infos[t].auto, c);
    SaversBeforeRelease(d, s, t);
    InstrTranscribes(d.pcs[t], d.infos[t].auto, c);
    PerformMovesFile(d, t, act, next);
  }

  lemma InvHasDomains(d: State)
    requires Inv(d)
    ensures d.infos.Keys == d.pcs.Keys && d.reasons.Keys == d.pcs.Keys
  {
    hide SlotOwned, HookOwned, GuardsCounted, TasksRegistered, StopsPrecise, WordsKept, LogOwned, PathsOwned;
    hide OutputPath;
  }

  lemma OtherStepsKeepPcs(d: State, e: Event)
    requires Enabled(d, e) && !e.Advance?
    ensures var d' := Do(d, e);
            forall t | t in d'.pcs && d'.pcs[t] != Reserved ::
              t in d.pcs && d'.pcs[t] == d.pcs[t] && (t in d'.infos ==> t in d.infos && d'.infos[t] == d.infos[t])
    ensures forall t | t in d.pcs && (e.Admit? ==> t != e.id) :: t in Do(d, e).pcs && Do(d, e).pcs[t] == d.pcs[t]
  {
    hide TaskAdvances, HasRecorder, OutputPath;
  }

  lemma {:induction false} FileHoldsOn(d: State, es: seq<Event>, d': State, s: SessionId)
    requires Inv(d) && Path(d, es, d') && Waits(es, s)
    requires s in d.pcs && d.pcs[s].LastWritten? && NoOtherTranscribing(d, s) && Names(d, s)
    ensures Names(d', s)
    decreases |es|
  {
    if es != [] {
      assert Enabled(d, es[0]) && Path(Do(d, es[0]), es[1..], d');
      assert es[0] in es && forall e | e in es[1..] :: e in es;
      StepKeepsInv(d, es[0]);
      NoneStartsTranscribing(d, es[0], s);
      NobodyTakesIt(d, es[0], s);
      hide Inv, Do, Path, Enabled, Names, NoOtherTranscribing;
      FileHoldsOn(Do(d, es[0]), es[1..], d', s);
    }
  }

  lemma NobodyTakesIt(d: State, e: Event, s: SessionId)
    requires Inv(d) && Enabled(d, e) && s in d.pcs && d.pcs[s].LastWritten? && Names(d, s)
    requires NoOtherTranscribing(d, s)
    ensures Names(Do(d, e), s)
  {
    hide Do, Inv, Names, SlotOwned, GuardsCounted, WordsKept;
    InvParts(d);
    RecordingFileStops(d, e, s);
  }

  // A session that is transcribing can write its transcript while `s` waits.
  lemma {:induction false} TranscriptTakesFile(d: State, s: SessionId, t: SessionId) returns (es: seq<Event>, d': State)
    requires Reachable(d) && s != t && Transcribing(d, t)
    ensures Path(d, es, d') && Waits(es, s) && Reachable(d') && Names(d', t)
    ensures t in d'.pcs && d'.pcs == d.pcs[t := d'.pcs[t]]
    decreases if d.pcs[t].TranscriptReady? then 0 else if d.pcs[t].JobSubmitted? then 1 else 2
  {
    hide Reachable;
    var e := Advance(t, Proceed);
    CanProceed(d, t);
    ReachStep(d, e);
    SaveNames(d, e);
    TranscribingAdvances(d, t);
    hide Do, Enabled, Instr;
    if d.pcs[t].TranscriptReady? {
      es, d' := [e], Do(d, e);
    } else {
      var rest;
      rest, d' := TranscriptTakesFile(Do(d, e), s, t);
      es := [e] + rest;
      assert es[1..] == rest;
    }
  }

  lemma CanProceed(d: State, t: SessionId)
    requires Reachable(d) && Transcribing(d, t)
    ensures Enabled(d, Advance(t, Proceed))
  {
    hide Reachable;
    Walks.CallsAreCounted(d);
  }

  lemma TranscribingAdvances(d: State, t: SessionId)
    requires Transcribing(d, t) && Enabled(d, Advance(t, Proceed))
    ensures
      var d' := Do(d, Advance(t, Proceed));
      && t in d'.pcs && d'.pcs == d.pcs[t := d'.pcs[t]]
      && (d.pcs[t] == Released(true) ==> d'.pcs[t].JobSubmitted? && Transcribing(d', t))
      && (d.pcs[t].JobSubmitted? ==> d'.pcs[t].TranscriptReady? && Transcribing(d', t))
  {
  }

  // The file is the session's at its RecordingComplete in every continuation exactly when no other session
  // is between its release and the write of its transcript.
  lemma FileHoldsExactly(d: State, s: SessionId)
    requires Reachable(d) && s in d.pcs && d.pcs[s].LastWritten? && Names(d, s)
    ensures FileHolds(d, s) <==> NoOtherTranscribing(d, s)
  {
    hide Reachable, Path, Inv, Names, Transcribing, Waits;
    ReachableIsInv(d);
    if NoOtherTranscribing(d, s) {
      forall es, d' | Path(d, es, d') && Waits(es, s)
        ensures Names(d', s)
      {
        FileHoldsOn(d, es, d', s);
      }
    } else {
      var t :| t in d.pcs && t != s && Transcribing(d, t);
      var es, d' := TranscriptTakesFile(d, s, t);
      NamesOne(d', s, t);
    }
  }

  lemma NamesOne(d: State, s: SessionId, t: SessionId)
    requires Names(d, t) && s != t
    ensures !Names(d, s)
  {
  }

  // And there are such runs: a recording about to be announced, saved, with the file naming another session.
  lemma TranscriptReplacesFile() returns (d: State, s: SessionId, t: SessionId)
    ensures Reachable(d) && s != t && s in d.pcs && d.pcs[s] == LastWritten(true) && Names(d, t)
  {
    hide Reachable, Path, Names, Waits;
    s, t := "bb", "a";
    d := Walks.Called(2);
    d := Walks.BegunToSaved(d, t);
    d := Walks.Transcribed(d, t);
    d := Walks.BegunToSaved(d, s);
    var _, d' := TranscriptTakesFile(d, s, t);
    d := d';
  }

  // ---- In runs that have not overlapped -----------------------------------------------------

  /** The session's recording has been written to the last-session file. */
  predicate HasSaved(pc: Pc) {
    || pc.LastWritten? || pc.CompleteSent? || pc.Released? || pc.JobSubmitted?
    || pc.TranscriptReady? || pc.TranscriptSaved?
    || ((pc.Closing? || pc.Closed?) && pc.how != DrainPanic)
  }

  /** So has its transcript. */
  predicate HasTranscript(pc: Pc) {
    pc.TranscriptSaved? || ((pc.Closing? || pc.Closed?) && pc.how == WithTranscript)
  }

  function SavedFile(id: SessionId, pc: Pc, audio: string): LastFile {
    if HasTranscript(pc) then WithTranscriptFile(id, audio) else AudioOnlyFile(id, audio)
  }

  /** The last-session file is what the open session has written of itself. */
  ghost predicate LastKept(d: State) {
    forall s | s in d.pcs && s in d.infos && HasSaved(d.pcs[s]) ::
      d.last == Some(SavedFile(s, d.pcs[s], d.infos[s].output))
  }

  /** What one instruction does to the file and to what the session has written. */
  ghost predicate SaveFacts(pc: Pc, act: Action, next: Pc) {
    && (HasSaved(next) ==> HasSaved(pc) || act.SaveAudio?)
    && (act.SaveAudio? ==> HasSaved(next) && !HasTranscript(next))
    && (act.SaveTranscript? ==> HasSaved(next) && HasTranscript(next))
    && (HasSaved(next) && !act.SaveAudio? && !act.SaveTranscript? ==> (HasTranscript(next) <==> HasTranscript(pc)))
  }

  lemma InstrSaveFacts(pc: Pc, auto: bool, c: Choice)
    requires !Halted(pc)
    ensures SaveFacts(pc, Instr(pc, auto, c).0, Instr(pc, auto, c).1)
  {
    hide SaveFacts, Instr, InStart;
    if InStart(pc) {
      StartSaveFacts(pc, auto, c);
    } else {
      LifecycleSaveFacts(pc, auto, c);
    }
  }

  lemma StartSaveFacts(pc: Pc, auto: bool, c: Choice)
    requires InStart(pc)
    ensures SaveFacts(pc, Instr(pc, auto, c).0, Instr(pc, auto, c).1)
  {
  }

  lemma LifecycleSaveFacts(pc: Pc, auto: bool, c: Choice)
    requires Live(pc)
    ensures SaveFacts(pc, Instr(pc, auto, c).0, Instr(pc, auto, c).1)
  {
  }

  lemma InstrFailedSaves(pc: Pc, auto: bool, c: Choice)
    requires !Halted(pc)
    ensures var act := Instr(pc, auto, c).0;
            act == SaveAudio(false) || act == SaveTranscript(false) ==>
              c != Proceed && (pc.StoppingSent? || pc.DrainedErr? || pc.TranscriptReady?)
  {
  }

  lemma SavedIsOpen(pc: Pc)
    requires HasSaved(pc)
    ensures Open(pc)
  {
  }

  lemma PerformMovesLast(d: State, id: SessionId, act: Action, next: Pc)
    requires id in d.infos
    ensures
      var d' := After(d, id, act, next);
      && d'.pcs == d.pcs[id := next] && d'.infos == d.infos
      && d'.last == (if act == SaveAudio(true) then Some(AudioOnlyFile(id, d.infos[id].output))
                     else if act == SaveTranscript(true) then Some(WithTranscriptFile(id, d.infos[id].output))
                     else d.last)
  {
  }

  lemma AdvanceKeepsLast(d: State, id: SessionId, act: Action, next: Pc)
    requires LastKept(d) && OneOpen(d) && id in d.pcs && id in d.infos && Open(d.pcs[id])
    requires SaveFacts(d.pcs[id], act, next) && act != SaveAudio(false) && act != SaveTranscript(false)
    ensures LastKept(After(d, id, act, next))
  {
    PerformMovesLast(d, id, act, next);
    hide After, Open, HasSaved, HasTranscript, AudioOnlyFile, WithTranscriptFile;
    forall s | s in d.pcs && s in d.infos && s != id
      ensures !HasSaved(d.pcs[s])
    {
      if HasSaved(d.pcs[s]) {
        SavedIsOpen(d.pcs[s]);
      }
    }
  }

  /** `d'` differs from `d` in nothing the file depends on, but for a session that has just begun. */
  ghost predicate SameFiles(d: State, d': State) {
    && d'.last == d.last
    && forall s | s in d'.pcs && s in d'.infos && HasSaved(d'.pcs[s]) ::
         s in d.pcs && s in d.infos && d.pcs[s] == d'.pcs[s] && d.infos[s] == d'.infos[s]
  }

  lemma SameFilesKeepsLast(d: State, d': State)
    requires LastKept(d) && SameFiles(d, d')
    ensures LastKept(d')
  {
    hide HasSaved, SavedFile;
  }

  lemma CallsAreSameFiles(d: State, id: SessionId, profile: string, auto: bool)
    ensures SameFiles(d, CallQueues(d))
    ensures d.waiting > 0 ==> SameFiles(d, CallFails(d)) && SameFiles(d, CallReserves(d, id, profile, auto))
  {
    hide OutputPath;
  }

  lemma StopsAreSameFiles(d: State, asked: SessionId, fire: Fire, id: SessionId)
    ensures SameFiles(d, StopArrives(d, asked)) && SameFiles(d, HookFires(d, fire)) && SameFiles(d, RecorderEnds(d, id))
    ensures SameFiles(d, TasksTaken(DrainRequested(d)))
  {
  }

  lemma OtherStepsAreSameFiles(d: State, e: Event)
    requires Enabled(d, e) && !e.Advance?
    ensures SameFiles(d, Do(d, e))
  {
    hide TaskAdvances, CallQueues, CallFails, CallReserves, StopArrives, HookFires, RecorderEnds;
    hide TasksTaken, DrainRequested, SameFiles, HasRecorder;
    match e
    case Call => CallsAreSameFiles(d, "", "", false);
    case Refuse => CallsAreSameFiles(d, "", "", false);
    case Admit(id, profile, auto) => CallsAreSameFiles(d, id, profile, auto);
    case StopCall(asked) => StopsAreSameFiles(d, asked, Fire("", ""), "");
    case FireHook(fire) => StopsAreSameFiles(d, "", fire, "");
    case RecorderStops(id) => StopsAreSameFiles(d, "", Fire("", ""), id);
    case ShutdownTakes => StopsAreSameFiles(d, "", Fire("", ""), "");
  }

  lemma TaskKeepsLast(d: State, id: SessionId, c: Choice)
    requires Enabled(d, Advance(id, c)) && !SkipsSave(d, Advance(id, c))
    requires OneOpen(d) && LastKept(d)
    ensures LastKept(TaskAdvances(d, id, c))
  {
    hide LastKept, OneOpen, Instr, After, Open;
    var (act, next) := Instr(d.pcs[id], d.infos[id].auto, c);
    InstrSaveFacts(d.pcs[id], d.infos[id].auto, c);
    InstrFailedSaves(d.pcs[id], d.infos[id].auto, c);
    InstrFileFacts(d.pcs[id], d.infos[id].auto, c);
    AdvanceKeepsLast(d, id, act, next);
  }

  lemma DaemonKeepsLast(d: State, e: Event)
    requires Enabled(d, e) && !SkipsSave(d, e) && OneOpen(d) && LastKept(d)
    ensures LastKept(Do(d, e))
  {
    hide LastKept, SkipsSave, OneOpen;
    if e.Advance? {
      TaskKeepsLast(d, e.id, e.choice);
    } else {
      hide Do, Enabled;
      OtherStepsAreSameFiles(d, e);
      SameFilesKeepsLast(d, Do(d, e));
    }
  }

  lemma WorldHasOneOpen(w: World)
    requires WorldInv(w) && !w.overlapped
    ensures OneOpen(w.d)
  {
    hide Inv, OneOpen, FilesKept, NoStaleFile, Knows, Sequential, CallsOwned, FaultsKept, UnwrittenPast;
  }

  lemma ClientKeepsLast(w: World, m: Move)
    requires LastKept(w.d) && Possible(w, m) && !m.Daemon?
    ensures LastKept(Make(w, m).d)
  {
    hide LastKept, Readable;
    if m.SendStart? {
      CallsAreSameFiles(w.d, "", "", false);
      SameFilesKeepsLast(w.d, CallQueues(w.d));
    } else if m.SendStop? {
      StopsAreSameFiles(w.d, w.phase.id, Fire("", ""), "");
      SameFilesKeepsLast(w.d, StopArrives(w.d, w.phase.id));
    }
    hide CallQueues, StopArrives;
  }

  lemma ClientKeepsFlags(w: World, m: Move)
    requires Possible(w, m) && !m.Daemon?
    ensures Make(w, m).saved == w.saved && Make(w, m).overlapped == w.overlapped
  {
  }

  /** While nothing has overlapped and every write succeeded. */
  ghost predicate LastInOrder(w: World) {
    w.saved && !w.overlapped ==> LastKept(w.d)
  }

  lemma MoveKeepsLast(w: World, m: Move)
    requires WorldInv(w) && Possible(w, m) && LastInOrder(w)
    ensures LastInOrder(Make(w, m))
  {
    hide WorldInv, LastKept, SkipsSave, LeavesFile, SkipsActive, Reserves, SomeOpen, OwnAfter, OneOpen;
    if m.Daemon? {
      if w.saved && !w.overlapped && !SkipsSave(w.d, m.e) {
        WorldHasOneOpen(w);
        DaemonKeepsLast(w.d, m.e);
      }
      hide Do, Enabled, Serves;
    } else {
      ClientKeepsFlags(w, m);
      if w.saved && !w.overlapped {
        ClientKeepsLast(w, m);
      }
      hide Make, Possible;
    }
  }

  lemma {:induction false} TrailKeepsLast(w: World, ms: seq<Move>, w': World)
    requires WorldInv(w) && LastInOrder(w) && Trail(w, ms, w')
    ensures LastInOrder(w')
    decreases |ms|
  {
    if ms != [] {
      hide WorldInv, Make, LastInOrder, Possible;
      MoveKeepsLast(w, ms[0]);
      MoveKeepsWorld(w, ms[0]);
      TrailKeepsLast(Make(w, ms[0]), ms[1..], w');
    }
  }

  lemma ArisesKeepsLast(w: World)
    requires Arises(w) && w.saved && !w.overlapped
    ensures LastKept(w.d)
  {
    hide WorldInv, Trail;
    var active, last, ms :| LastFileIsOwn(last) && Trail(Boot(active, last), ms, w);
    BootHolds(active, last);
    TrailKeepsLast(Boot(active, last), ms, w);
  }

  /** What the task of `id` is about to say, if anything. */
  predicate AboutToSay(d: State, id: SessionId, letter: Letter) {
    id in d.pcs && id in d.infos && Instr(d.pcs[id], d.infos[id].auto, Proceed).0 == Say(letter)
  }

  lemma SpeakersHaveSaved(pc: Pc, auto: bool)
    ensures Instr(pc, auto, Proceed).0 == Say(RecordingComplete) ==> HasSaved(pc) && !HasTranscript(pc)
    ensures Instr(pc, auto, Proceed).0 == Say(TranscriptComplete) ==> HasSaved(pc) && HasTranscript(pc)
    ensures Instr(pc, auto, Proceed).0 == Say(Idle) ==> HasSaved(pc)
  {
  }

  // When RecordingComplete is emitted the file names that session and its audio; when TranscriptComplete
  // is, its transcript as well; and it still names the session when "idle" is.
  lemma FileIsThereBeforeTheSignal(w: World, s: SessionId)
    requires Arises(w) && w.saved && !w.overlapped
    ensures AboutToSay(w.d, s, RecordingComplete) ==> w.d.last == Some(AudioOnlyFile(s, w.d.infos[s].output))
    ensures AboutToSay(w.d, s, TranscriptComplete) ==> w.d.last == Some(WithTranscriptFile(s, w.d.infos[s].output))
    ensures AboutToSay(w.d, s, Idle) ==> w.d.last.Some? && w.d.last.value.sessionId == s
  {
    hide Arises, Instr, HasSaved, HasTranscript, OutputPath;
    ArisesKeepsLast(w);
    if s in w.d.pcs && s in w.d.infos {
      SpeakersHaveSaved(w.d.pcs[s], w.d.infos[s].auto);
    }
  }
}
