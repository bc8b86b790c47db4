/**
 The inductive invariant of the recording protocol.

 `InstrFacts` reads what is needed off the program table once; every invariant is
 then kept by a step for the same few reasons, whatever the program counter.
 */
module ProtocolProofs {
  import opened Wrappers
  import opened SessionManagers
  import opened Protocol

  // ---- What a program counter means -----------------------------------------

  predicate HoldsSlot(pc: Pc) {
    || pc.Reserved? || pc.StartingSent? || pc.RecorderUp? || pc.FileWritten? || pc.RecordingSent?
    || pc.Leaked? || pc.Listening? || pc.Draining? || pc.DrainedOk? || pc.DrainedErr?
    || pc.StoppingSent? || pc.LastWritten? || pc.CompleteSent?
  }

  /** Inside `start_recording`, past the reservation. */
  predicate InStart(pc: Pc) {
    || pc.Reserved? || pc.StartingSent? || pc.RecorderUp? || pc.FileWritten? || pc.RecordingSent?
    || pc.StartFailed? || pc.StartFailedSent?
  }

  /** A spawned lifecycle task that has not finished. */
  predicate Live(pc: Pc) {
    !InStart(pc) && !Halted(pc)
  }

  /** Everything the session has put in the log, slot moves included. */
  function Word(pc: Pc): seq<Letter> {
    match pc
    case Reserved => [Reserve]
    case Silent => [Reserve, Release]
    case StartingSent => [Reserve, Starting]
    case RecorderUp => [Reserve, Starting]
    case FileWritten => [Reserve, Starting]
    case StartFailed => [Reserve, Starting, Release]
    case StartFailedSent => [Reserve, Starting, Release, Failed]
    case Rejected => [Reserve, Starting, Release, Failed]
    case StoppingSent => [Reserve, Starting, Recording, Stopping]
    case LastWritten(ok) => Drained(ok)
    case CompleteSent(ok) => Drained(ok) + [RecordingComplete]
    case Released(ok) => Drained(ok) + [RecordingComplete, Release]
    case JobSubmitted => Drained(true) + [RecordingComplete, Release]
    case TranscriptReady => Drained(true) + [RecordingComplete, Release]
    case TranscriptSaved => Drained(true) + [RecordingComplete, Release]
    case Closing(how) => BeforeTerminal(how)
    case Closed(how) => BeforeTerminal(how) + [Terminal(how)]
    case Finished(how) => BeforeTerminal(how) + [Terminal(how)]
    case _ => [Reserve, Starting, Recording]
  }

  function Drained(ok: bool): seq<Letter> {
    if ok then [Reserve, Starting, Recording, Stopping] else [Reserve, Starting, Recording]
  }

  function BeforeTerminal(how: Ending): seq<Letter> {
    match how
    case WithTranscript => Drained(true) + [RecordingComplete, Release, TranscriptComplete]
    case AudioOnly => Drained(true) + [RecordingComplete, Release]
    case JobFailed => Drained(true) + [RecordingComplete, Release]
    case RecorderError => Drained(false) + [RecordingComplete, Release]
    case DrainPanic => [Reserve, Starting, Recording, Release]
  }

  predicate Frees(act: Action) {
    act.FreeSlot? || act.FreeSlotAndReturn?
  }

  predicate Returns(act: Action) {
    act.FreeSlotAndReturn? || act.Return? || act.Spawn?
  }

  function Said(act: Action): seq<Letter> {
    if act.Say? then [act.letter] else if Frees(act) then [Release] else []
  }

  /** The letters a session may log only while it owns the slot. */
  predicate SlotLetter(l: Letter) {
    l == Starting || l == Recording || l == Stopping || l == RecordingComplete || l == Release
  }

  /** What one instruction does to the meaning of the program counter. */
  ghost predicate TableFacts(pc: Pc, act: Action, next: Pc) {
    && SlotFacts(pc, act, next)
    && CallFacts(pc, act, next)
  }

  ghost predicate SlotFacts(pc: Pc, act: Action, next: Pc) {
    && (HoldsSlot(next) <==> HoldsSlot(pc) && !Frees(act))
    && (Frees(act) || act.Spawn? ==> HoldsSlot(pc))
    && (next.Finished? ==> !HoldsSlot(pc))
    && (act.Say? ==> act.letter != Reserve && act.letter != Release)
    && (act.Say? && SlotLetter(act.letter) ==> HoldsSlot(pc))
  }

  ghost predicate CallFacts(pc: Pc, act: Action, next: Pc) {
    && (InStart(next) <==> InStart(pc) && !Returns(act))
    && (Returns(act) ==> InStart(pc))
    && (Live(next) <==> act.Spawn? || (Live(pc) && !next.Finished?))
  }

  lemma StartSlotFacts(pc: Pc, auto: bool, c: Choice)
    requires InStart(pc)
    ensures SlotFacts(pc, Instr(pc, auto, c).0, Instr(pc, auto, c).1)
  {
  }

  lemma LifecycleSlotFacts(pc: Pc, auto: bool, c: Choice)
    requires Live(pc)
    ensures SlotFacts(pc, Instr(pc, auto, c).0, Instr(pc, auto, c).1)
  {
  }

  lemma InstrSlotFacts(pc: Pc, auto: bool, c: Choice)
    requires !Halted(pc)
    ensures SlotFacts(pc, Instr(pc, auto, c).0, Instr(pc, auto, c).1)
  {
    hide SlotFacts, Instr, InStart;
    if InStart(pc) {
      StartSlotFacts(pc, auto, c);
    } else {
      LifecycleSlotFacts(pc, auto, c);
    }
  }

  lemma StartCallFacts(pc: Pc, auto: bool, c: Choice)
    requires InStart(pc)
    ensures CallFacts(pc, Instr(pc, auto, c).0, Instr(pc, auto, c).1)
  {
  }

  /** Where a lifecycle takes one of several ways. */
  predicate Branches(pc: Pc) {
    pc.Draining? || pc.Released? || pc.JobSubmitted?
  }

  lemma BranchCallFacts(pc: Pc, auto: bool, c: Choice)
    requires Branches(pc)
    ensures CallFacts(pc, Instr(pc, auto, c).0, Instr(pc, auto, c).1)
  {
  }

  lemma LifecycleCallFacts(pc: Pc, auto: bool, c: Choice)
    requires Live(pc) && !Branches(pc)
    ensures CallFacts(pc, Instr(pc, auto, c).0, Instr(pc, auto, c).1)
  {
  }

  lemma InstrCallFacts(pc: Pc, auto: bool, c: Choice)
    requires !Halted(pc)
    ensures CallFacts(pc, Instr(pc, auto, c).0, Instr(pc, auto, c).1)
  {
    hide CallFacts, Instr, InStart;
    if InStart(pc) {
      StartCallFacts(pc, auto, c);
    } else if Branches(pc) {
      BranchCallFacts(pc, auto, c);
    } else {
      LifecycleCallFacts(pc, auto, c);
    }
  }

  lemma StartSpeaks(pc: Pc, auto: bool, c: Choice)
    requires InStart(pc)
    ensures Word(Instr(pc, auto, c).1) == Word(pc) + Said(Instr(pc, auto, c).0)
  {
  }

  lemma LifecycleSpeaks(pc: Pc, auto: bool, c: Choice)
    requires Live(pc) && !Branches(pc)
    ensures Word(Instr(pc, auto, c).1) == Word(pc) + Said(Instr(pc, auto, c).0)
  {
  }

  lemma BranchSpeaks(pc: Pc, auto: bool, c: Choice)
    requires Branches(pc)
    ensures Word(Instr(pc, auto, c).1) == Word(pc) + Said(Instr(pc, auto, c).0)
  {
  }

  // An instruction extends the session's word by what it says.
  lemma InstrSpeaks(pc: Pc, auto: bool, c: Choice)
    requires !Halted(pc)
    ensures Word(Instr(pc, auto, c).1) == Word(pc) + Said(Instr(pc, auto, c).0)
  {
    hide Word, Instr;
    if InStart(pc) {
      StartSpeaks(pc, auto, c);
    } else if Branches(pc) {
      BranchSpeaks(pc, auto, c);
    } else {
      LifecycleSpeaks(pc, auto, c);
    }
  }

  lemma FinishedSaysTerminal(how: Ending)
    ensures Terminal(how) in Word(Finished(how)) && (Terminal(how) == Idle || Terminal(how) == Failed)
  {
    var word := Word(Finished(how));
    assert word[|word| - 1] == Terminal(how);
  }

  // ---- The log ----------------------------------------------------------------

  /** The letters one session has logged, in order. */
  function Project(log: seq<Entry>, s: SessionId): seq<Letter> {
    if log == [] then []
    else
      var e := log[|log| - 1];
      Project(log[..|log| - 1], s) + (if e.session == s then [e.letter] else [])
  }

  /** The session that owns the slot after `log`, replayed from its moves alone. */
  function Owner(log: seq<Entry>): Option<SessionId> {
    if log == [] then None
    else
      var e := log[|log| - 1];
      if e.letter == Reserve then Some(e.session)
      else if e.letter == Release then None
      else Owner(log[..|log| - 1])
  }

  /** Nobody reserves an owned slot, and only the owner logs a slot letter. */
  ghost predicate Disciplined(log: seq<Entry>) {
    forall k | 0 <= k < |log| ::
      && (log[k].letter == Reserve ==> Owner(log[..k]) == None)
      && (SlotLetter(log[k].letter) ==> Owner(log[..k]) == Some(log[k].session))
  }

  lemma {:induction false} Snoc(log: seq<Entry>, e: Entry)
    ensures (log + [e])[..|log|] == log
    ensures forall s :: Project(log + [e], s) == Project(log, s) + (if e.session == s then [e.letter] else [])
    ensures Owner(log + [e])
         == if e.letter == Reserve then Some(e.session) else if e.letter == Release then None else Owner(log)
  {
    assert (log + [e])[..|log|] == log;
  }

  lemma {:induction false} ProjectHas(log: seq<Entry>, i: nat)
    requires i < |log|
    ensures log[i].letter in Project(log, log[i].session)
  {
    if i < |log| - 1 {
      ProjectHas(log[..|log| - 1], i);
    }
  }

  lemma {:induction false} ProjectFinds(log: seq<Entry>, s: SessionId, l: Letter) returns (i: nat)
    requires l in Project(log, s)
    ensures i < |log| && log[i].session == s && log[i].letter == l
  {
    var e := log[|log| - 1];
    if e.session == s && e.letter == l {
      i := |log| - 1;
    } else {
      i := ProjectFinds(log[..|log| - 1], s, l);
    }
  }

  lemma {:induction false} DisciplinedSnoc(log: seq<Entry>, e: Entry)
    requires Disciplined(log)
    requires e.letter == Reserve ==> Owner(log) == None
    requires SlotLetter(e.letter) ==> Owner(log) == Some(e.session)
    ensures Disciplined(log + [e])
  {
    var log' := log + [e];
    forall k | 0 <= k < |log'|
      ensures log'[k].letter == Reserve ==> Owner(log'[..k]) == None
      ensures SlotLetter(log'[k].letter) ==> Owner(log'[..k]) == Some(log'[k].session)
    {
      assert log'[..k] == log[..k];
      assert log[..|log|] == log;
    }
  }

  // ---- The invariant ------------------------------------------------------------

  ghost predicate Domains(d: State) {
    && d.infos.Keys == d.pcs.Keys
    && d.reasons.Keys == d.pcs.Keys
    && (forall s | s in d.infos :: s != "" && d.infos[s].output == OutputPath(s) && d.infos[s].profile != "")
  }

  /** The slot holds `s` exactly when `s` is between its reserve and its release. */
  ghost predicate SlotOwned(d: State) {
    && (d.mgr.slot.Some? ==> d.mgr.slot.value.sessionId in d.pcs)
    && (forall s | s in d.pcs ::
          HoldsSlot(d.pcs[s]) <==> d.mgr.slot.Some? && d.mgr.slot.value.sessionId == s)
  }

  /** The installed hook writes to the owner's own recorder. */
  ghost predicate HookOwned(d: State) {
    d.mgr.slot.Some? && d.mgr.slot.value.sessionId in d.pcs ==>
      d.mgr.slot.value.stopHook
      == if Live(d.pcs[d.mgr.slot.value.sessionId]) then Some(d.mgr.slot.value.sessionId) else None
  }

  /** The in-flight counter counts the queued calls and the one inside the start lock. */
  ghost predicate GuardsCounted(d: State) {
    && d.mgr.inflight == d.waiting + (if d.startLock.Some? then 1 else 0)
    && (d.startLock.Some? ==> d.startLock.value in d.pcs)
    && (forall s | s in d.pcs :: InStart(d.pcs[s]) <==> d.startLock == Some(s))
  }

  /** Every live lifecycle has a registered or taken handle, and no call that has yet to spawn has one. */
  ghost predicate TasksRegistered(d: State) {
    && (forall s | s in d.pcs && Live(d.pcs[s]) :: s in d.mgr.tasks || s in d.taken)
    && (forall t | t in d.mgr.tasks || t in d.taken :: t in d.pcs && !InStart(d.pcs[t]))
  }

  ghost predicate StopsPrecise(d: State) {
    && (forall f | f in d.fires :: f.asked == f.recorder && f.recorder in d.pcs)
    && (forall r | r in d.replies && r.attempt == Stopped ::
          r.asked in d.reasons && d.reasons[r.asked] != Running)
    && (forall s | s in d.reasons && d.reasons[s] == UserRequested ::
          Reply(s, Stopped) in d.replies || s in d.drainAsked)
  }

  ghost predicate WordsKept(d: State) {
    forall s :: Project(d.log, s) == if s in d.pcs then Word(d.pcs[s]) else []
  }

  ghost predicate LogOwned(d: State) {
    && Disciplined(d.log)
    && Owner(d.log) == if d.mgr.slot.Some? then Some(d.mgr.slot.value.sessionId) else None
  }

  /** `RecordingComplete` carries its own session's path, and so does the last-session file. */
  ghost predicate PathsOwned(d: State) {
    && LastFileIsOwn(d.last)
    && (forall e | e in d.log && e.letter == RecordingComplete :: e.path == OutputPath(e.session))
  }

  ghost predicate Inv(d: State) {
    && Domains(d)
    && SlotOwned(d)
    && HookOwned(d)
    && GuardsCounted(d)
    && TasksRegistered(d)
    && StopsPrecise(d)
    && WordsKept(d)
    && LogOwned(d)
    && PathsOwned(d)
  }

  lemma InitHolds(active: Option<ActiveFile>, last: Option<LastFile>)
    requires LastFileIsOwn(last)
    ensures Inv(Init(active, last))
  {
  }

  // ---- One step keeps it ----------------------------------------------------------

  lemma PerformMovesSlot(d: State, id: SessionId, act: Action, next: Pc)
    requires id in d.infos
    ensures
      var d' := After(d, id, act, next);
      && d'.pcs == d.pcs[id := next] && d'.infos == d.infos && d'.reasons == d.reasons
      && d'.mgr.slot
         == if Frees(act) then None
            else if act.Spawn? then d.mgr.InstallStopHook(id).slot
            else d.mgr.slot
  {
  }

  lemma AdvanceKeepsOwnership(d: State, id: SessionId, act: Action, next: Pc)
    requires Domains(d) && SlotOwned(d) && HookOwned(d) && id in d.pcs
    requires TableFacts(d.pcs[id], act, next)
    ensures var d' := After(d, id, act, next); Domains(d') && SlotOwned(d') && HookOwned(d')
  {
    hide After, HoldsSlot, InStart, Live, OutputPath, SlotOwned, HookOwned, CallFacts, SlotFacts;
    PerformMovesSlot(d, id, act, next);
    AdvanceKeepsSlot(d, id, act, next);
    AdvanceKeepsHook(d, id, act, next);
  }

  lemma AdvanceKeepsSlot(d: State, id: SessionId, act: Action, next: Pc)
    requires SlotOwned(d) && id in d.pcs && id in d.infos && SlotFacts(d.pcs[id], act, next)
    ensures SlotOwned(After(d, id, act, next))
  {
    PerformMovesSlot(d, id, act, next);
    hide After, HoldsSlot, SlotLetter;
  }

  lemma AdvanceKeepsHook(d: State, id: SessionId, act: Action, next: Pc)
    requires SlotOwned(d) && HookOwned(d) && id in d.pcs && id in d.infos
    requires SlotFacts(d.pcs[id], act, next) && CallFacts(d.pcs[id], act, next)
    ensures HookOwned(After(d, id, act, next))
  {
    PerformMovesSlot(d, id, act, next);
    hide After, HoldsSlot, InStart, Live, SlotLetter, Returns;
  }

  lemma AdvanceKeepsGuards(d: State, id: SessionId, act: Action, next: Pc)
    requires GuardsCounted(d) && id in d.pcs && id in d.infos
    requires CallFacts(d.pcs[id], act, next)
    ensures GuardsCounted(After(d, id, act, next))
  {
    hide HoldsSlot, InStart, Live;
    var d' := After(d, id, act, next);
    assert d'.waiting == d.waiting;
    assert d'.startLock == if Returns(act) then None else d.startLock;
    assert d'.mgr.inflight == if Returns(act) then d.mgr.EndStart().inflight else d.mgr.inflight;
    assert InStart(d.pcs[id]) <==> d.startLock == Some(id);
  }

  lemma {:induction false} PerformMovesTasks(d: State, id: SessionId, act: Action, next: Pc)
    requires id in d.infos
    ensures
      var d' := After(d, id, act, next);
      && d'.pcs == d.pcs[id := next] && d'.taken == d.taken
      && forall s :: s in d'.mgr.tasks <==>
           if act.Spawn? then s == id || (s in d.mgr.tasks && s !in FinishedTasks(d.pcs)) else s in d.mgr.tasks
  {
    var d' := After(d, id, act, next);
    assert d'.mgr.tasks
        == if act.Spawn? then Unfinished(d.mgr.tasks, FinishedTasks(d.pcs)) + [id] else d.mgr.tasks;
    hide FinishedTasks, After, Perform;
    forall s
      ensures s in Unfinished(d.mgr.tasks, FinishedTasks(d.pcs)) <==> s in d.mgr.tasks && s !in FinishedTasks(d.pcs)
    {
      PruningKeepsUnfinished(d.mgr.tasks, FinishedTasks(d.pcs), s);
    }
  }

  lemma FinishedAreNotLive(pcs: map<SessionId, Pc>)
    ensures forall s | s in FinishedTasks(pcs) :: s in pcs && !Live(pcs[s])
  {
  }

  lemma AdvanceKeepsTasks(d: State, id: SessionId, act: Action, next: Pc)
    requires TasksRegistered(d) && id in d.pcs && id in d.infos
    requires CallFacts(d.pcs[id], act, next)
    ensures TasksRegistered(After(d, id, act, next))
  {
    hide HoldsSlot, InStart, Live, After, Perform, FinishedTasks;
    PerformMovesTasks(d, id, act, next);
    FinishedAreNotLive(d.pcs);
  }

  lemma AdvanceKeepsPaths(d: State, id: SessionId, act: Action, next: Pc)
    requires PathsOwned(d) && Domains(d) && id in d.pcs
    ensures PathsOwned(After(d, id, act, next))
  {
    hide OutputPath;
  }

  lemma AdvanceKeepsStops(d: State, id: SessionId, act: Action, next: Pc)
    requires StopsPrecise(d) && id in d.pcs && id in d.infos
    ensures StopsPrecise(After(d, id, act, next))
  {
  }

  lemma PerformMovesLog(d: State, id: SessionId, act: Action, next: Pc) returns (more: seq<Entry>)
    requires id in d.infos
    ensures After(d, id, act, next).log == d.log + more && |more| == |Said(act)|
    ensures more != [] ==> more == [more[0]] && more[0].session == id && [more[0].letter] == Said(act)
  {
    more := After(d, id, act, next).log[|d.log|..];
  }

  lemma AdvanceKeepsWords(d: State, id: SessionId, act: Action, next: Pc)
    requires WordsKept(d) && id in d.pcs && id in d.infos
    requires Word(next) == Word(d.pcs[id]) + Said(act)
    ensures WordsKept(After(d, id, act, next))
  {
    var more := PerformMovesLog(d, id, act, next);
    PerformMovesSlot(d, id, act, next);
    hide After, Perform, Word, Said;
    if more == [] {
      assert d.log + more == d.log;
    } else {
      Snoc(d.log, more[0]);
    }
  }

  lemma AdvanceKeepsLogOwned(d: State, id: SessionId, act: Action, next: Pc)
    requires LogOwned(d) && SlotOwned(d) && id in d.pcs && id in d.infos
    requires SlotFacts(d.pcs[id], act, next)
    ensures LogOwned(After(d, id, act, next))
  {
    var more := PerformMovesLog(d, id, act, next);
    PerformMovesSlot(d, id, act, next);
    hide After, Perform, HoldsSlot, Disciplined;
    if more == [] {
      assert d.log + more == d.log;
    } else {
      Snoc(d.log, more[0]);
      DisciplinedSnoc(d.log, more[0]);
    }
  }

  lemma AdvanceKeepsInv(d: State, id: SessionId, c: Choice)
    requires Inv(d) && Enabled(d, Advance(id, c))
    ensures Inv(TaskAdvances(d, id, c))
  {
    var (act, next) := Instr(d.pcs[id], d.infos[id].auto, c);
    InstrSlotFacts(d.pcs[id], d.infos[id].auto, c);
    InstrCallFacts(d.pcs[id], d.infos[id].auto, c);
    InstrSpeaks(d.pcs[id], d.infos[id].auto, c);
    hide Instr, Word, Said, SlotFacts, CallFacts, Domains, SlotOwned, HookOwned, GuardsCounted, TasksRegistered;
    hide StopsPrecise, WordsKept, LogOwned, PathsOwned;
    AdvanceKeepsOwnership(d, id, act, next);
    AdvanceKeepsGuards(d, id, act, next);
    AdvanceKeepsTasks(d, id, act, next);
    AdvanceKeepsStops(d, id, act, next);
    AdvanceKeepsPaths(d, id, act, next);
    AdvanceKeepsWords(d, id, act, next);
    AdvanceKeepsLogOwned(d, id, act, next);
  }

  lemma ReservedWord()
    ensures Word(Reserved) == [Reserve]
  {
  }

  lemma ReserveKeepsLog(d: State, id: SessionId, profile: string, auto: bool)
    requires WordsKept(d) && LogOwned(d) && PathsOwned(d)
    requires d.waiting > 0 && d.mgr.slot.None? && id !in d.pcs
    ensures var d' := CallReserves(d, id, profile, auto); WordsKept(d') && LogOwned(d') && PathsOwned(d')
  {
    ReserveMoves(d, id, profile, auto);
    hide Disciplined, OutputPath, CallReserves, Word;
    var entry := Entry(id, Reserve, "");
    assert Word(Reserved) == [Reserve] by { ReservedWord(); }
    Snoc(d.log, entry);
    DisciplinedSnoc(d.log, entry);
    assert Project(d.log, id) == [];
  }

  lemma ReserveKeepsOwnership(d: State, id: SessionId, profile: string, auto: bool)
    requires Domains(d) && SlotOwned(d) && HookOwned(d) && GuardsCounted(d)
    requires d.waiting > 0 && d.mgr.slot.None? && d.startLock.None? && id !in d.pcs && id != "" && profile != ""
    ensures var d' := CallReserves(d, id, profile, auto);
            Domains(d') && SlotOwned(d') && HookOwned(d') && GuardsCounted(d')
  {
    hide OutputPath, CallReserves, HoldsSlot, InStart, Live, SlotOwned, HookOwned, GuardsCounted;
    ReserveMoves(d, id, profile, auto);
    ReserveKeepsSlot(d, id, profile, auto);
    ReserveKeepsGuards(d, id, profile, auto);
  }

  lemma ReserveKeepsSlot(d: State, id: SessionId, profile: string, auto: bool)
    requires SlotOwned(d) && d.waiting > 0 && d.mgr.slot.None? && id !in d.pcs
    ensures var d' := CallReserves(d, id, profile, auto); SlotOwned(d') && HookOwned(d')
  {
    ReserveMoves(d, id, profile, auto);
    assert HoldsSlot(Reserved) && !Live(Reserved);
    hide OutputPath, CallReserves, HoldsSlot, Live;
  }

  lemma ReserveKeepsGuards(d: State, id: SessionId, profile: string, auto: bool)
    requires GuardsCounted(d) && d.waiting > 0 && d.startLock.None? && id !in d.pcs
    ensures GuardsCounted(CallReserves(d, id, profile, auto))
  {
    ReserveMoves(d, id, profile, auto);
    assert InStart(Reserved);
    hide OutputPath, CallReserves, InStart;
  }

  // A reservation, as the fields it changes.
  lemma ReserveMoves(d: State, id: SessionId, profile: string, auto: bool)
    requires d.waiting > 0
    ensures
      var d' := CallReserves(d, id, profile, auto);
      && d'.pcs == d.pcs[id := Reserved] && d'.infos == d.infos[id := Info(profile, auto, OutputPath(id))]
      && d'.reasons == d.reasons[id := Running] && d'.waiting == d.waiting - 1 && d'.startLock == Some(id)
      && d'.mgr == Manager(Some(ActiveSession(id, profile, None)), d.mgr.tasks, d.mgr.inflight)
      && d'.fires == d.fires && d'.replies == d.replies && d'.drainAsked == d.drainAsked && d'.taken == d.taken
      && d'.log == d.log + [Entry(id, Reserve, "")] && d'.last == d.last
  {
    hide OutputPath;
  }

  lemma ReserveKeepsTasks(d: State, id: SessionId, profile: string, auto: bool)
    requires TasksRegistered(d) && d.waiting > 0 && id !in d.pcs
    ensures TasksRegistered(CallReserves(d, id, profile, auto))
  {
    ReserveMoves(d, id, profile, auto);
    assert InStart(Reserved) && !Live(Reserved);
    hide OutputPath, CallReserves, InStart, Live;
  }

  lemma ReserveKeepsStops(d: State, id: SessionId, profile: string, auto: bool)
    requires Domains(d) && StopsPrecise(d) && d.waiting > 0 && id !in d.pcs
    ensures StopsPrecise(CallReserves(d, id, profile, auto))
  {
    ReserveMoves(d, id, profile, auto);
    hide OutputPath, CallReserves;
  }

  lemma ReserveKeepsInv(d: State, id: SessionId, profile: string, auto: bool)
    requires Inv(d) && d.waiting > 0 && d.mgr.slot.None? && d.startLock.None?
    requires id !in d.pcs && id != "" && profile != ""
    ensures Inv(CallReserves(d, id, profile, auto))
  {
    hide Domains, SlotOwned, HookOwned, GuardsCounted, TasksRegistered, StopsPrecise, WordsKept, LogOwned, PathsOwned;
    hide CallReserves;
    ReserveKeepsOwnership(d, id, profile, auto);
    ReserveKeepsTasks(d, id, profile, auto);
    ReserveKeepsStops(d, id, profile, auto);
    ReserveKeepsLog(d, id, profile, auto);
  }

  // A hook names the recorder of the session that owns the slot.
  lemma HookNamesOwner(d: State)
    requires SlotOwned(d) && HookOwned(d) && d.mgr.ActiveHook().Some?
    ensures d.mgr.ActiveHook().value == d.mgr.slot.value.sessionId
    ensures d.mgr.ActiveHook().value in d.pcs
  {
    hide HoldsSlot, Live;
  }

  /** `d'` differs from `d` only in calls, stop requests, recorder reasons and handles. */
  ghost predicate SameProgram(d: State, d': State) {
    && d'.pcs == d.pcs && d'.infos == d.infos && d'.mgr.slot == d.mgr.slot && d'.startLock == d.startLock
    && d'.log == d.log && d'.last == d.last && d'.reasons.Keys == d.reasons.Keys
  }

  lemma SameProgramKeeps(d: State, d': State)
    requires Inv(d) && SameProgram(d, d')
    requires d'.mgr.inflight - d'.waiting == d.mgr.inflight - d.waiting
    requires forall t :: t in d.mgr.tasks || t in d.taken <==> t in d'.mgr.tasks || t in d'.taken
    requires StopsPrecise(d')
    ensures Inv(d')
  {
    hide OutputPath, HoldsSlot, InStart, Live, Word, Disciplined, Project, Owner, StopsPrecise;
    assert WordsKept(d');
  }

  lemma StopArrivesIsPrecise(d: State, asked: SessionId)
    requires SlotOwned(d) && HookOwned(d) && StopsPrecise(d)
    ensures StopsPrecise(StopArrives(d, asked)) && SameProgram(d, StopArrives(d, asked))
  {
    if d.mgr.StopDecision(asked) == Stopped {
      HookNamesOwner(d);
    }
    hide SlotOwned, HookOwned;
  }

  lemma HookFiresIsPrecise(d: State, fire: Fire)
    requires d.reasons.Keys == d.pcs.Keys && StopsPrecise(d) && fire in d.fires
    ensures StopsPrecise(HookFires(d, fire)) && SameProgram(d, HookFires(d, fire))
  {
  }

  lemma RecorderEndsIsPrecise(d: State, id: SessionId)
    requires d.reasons.Keys == d.pcs.Keys && StopsPrecise(d) && id in d.pcs
    ensures StopsPrecise(RecorderEnds(d, id)) && SameProgram(d, RecorderEnds(d, id))
  {
  }

  lemma DrainIsPrecise(d: State)
    requires d.reasons.Keys == d.pcs.Keys && SlotOwned(d) && HookOwned(d) && StopsPrecise(d)
    ensures StopsPrecise(DrainRequested(d)) && SameProgram(d, DrainRequested(d))
  {
    if d.mgr.ActiveHook().Some? { HookNamesOwner(d); }
    hide SlotOwned, HookOwned;
  }

  lemma CallsKeepInv(d: State)
    requires Inv(d)
    ensures Inv(CallQueues(d))
    ensures d.waiting > 0 && d.startLock.None? ==> Inv(CallFails(d))
  {
    hide Domains, SlotOwned, HookOwned, TasksRegistered, WordsKept, LogOwned, PathsOwned;
    SameProgramKeeps(d, CallQueues(d));
    if d.waiting > 0 && d.startLock.None? {
      SameProgramKeeps(d, CallFails(d));
    }
  }

  lemma StopsKeepInv(d: State, e: Event)
    requires Inv(d) && Enabled(d, e) && (e.StopCall? || e.FireHook? || e.RecorderStops?)
    ensures Inv(Do(d, e))
  {
    assert d.reasons.Keys == d.pcs.Keys;
    hide Domains, SlotOwned, HookOwned, GuardsCounted, TasksRegistered, WordsKept, LogOwned, PathsOwned, StopsPrecise;
    match e
    case StopCall(asked) =>
      StopArrivesIsPrecise(d, asked);
      SameProgramKeeps(d, StopArrives(d, asked));
    case FireHook(fire) =>
      HookFiresIsPrecise(d, fire);
      SameProgramKeeps(d, HookFires(d, fire));
    case RecorderStops(id) =>
      RecorderEndsIsPrecise(d, id);
      SameProgramKeeps(d, RecorderEnds(d, id));
  }

  lemma ShutdownKeepsInv(d: State)
    requires Inv(d)
    ensures Inv(DrainRequested(d)) && Inv(TasksTaken(DrainRequested(d)))
  {
    assert d.reasons.Keys == d.pcs.Keys;
    hide Domains, SlotOwned, HookOwned, GuardsCounted, TasksRegistered, WordsKept, LogOwned, PathsOwned;
    var d1 := DrainRequested(d);
    DrainIsPrecise(d);
    SameProgramKeeps(d, d1);
    var d2 := TasksTaken(d1);
    assert d2.fires == d1.fires && d2.replies == d1.replies;
    assert d2.reasons == d1.reasons && d2.drainAsked == d1.drainAsked;
    hide DrainRequested;
    SameProgramKeeps(d1, d2);
  }

  // Every step of every interleaving keeps the invariant.
  lemma StepKeepsInv(d: State, e: Event)
    requires Inv(d) && Enabled(d, e)
    ensures Inv(Do(d, e))
  {
    if e.StopCall? || e.FireHook? || e.RecorderStops? {
      StopsKeepInv(d, e);
      return;
    }
    hide Instr, TaskAdvances, CallReserves, DrainRequested, TasksTaken;
    match e
    case Call => CallsKeepInv(d);
    case Refuse => CallsKeepInv(d);
    case Admit(id, profile, auto) =>
      if d.mgr.slot.Some? {
        CallsKeepInv(d);
      } else {
        ReserveKeepsInv(d, id, profile, auto);
      }
    case Advance(id, c) => AdvanceKeepsInv(d, id, c);
    case ShutdownTakes => ShutdownKeepsInv(d);
    case _ =>
  }

  lemma {:induction false} PathKeepsInv(d: State, es: seq<Event>, d': State)
    requires Inv(d) && Path(d, es, d')
    ensures Inv(d')
    decreases |es|
  {
    if es != [] {
      StepKeepsInv(d, es[0]);
      PathKeepsInv(Do(d, es[0]), es[1..], d');
    }
  }

  // Every state of every run satisfies the invariant.
  lemma ReachableIsInv(d: State)
    requires Reachable(d)
    ensures Inv(d)
  {
    var active, last :| LastFileIsOwn(last) && Leads(Init(active, last), d);
    var es :| Path(Init(active, last), es, d);
    InitHolds(active, last);
    PathKeepsInv(Init(active, last), es, d);
  }

  // A step only appends to the log and only adds sessions.
  lemma StepAppends(d: State, e: Event)
    requires Enabled(d, e)
    ensures d.log <= Do(d, e).log && d.pcs.Keys <= Do(d, e).pcs.Keys
  {
    if e.Advance? {
      var (act, next) := Instr(d.pcs[e.id], d.infos[e.id].auto, e.choice);
      var _ := PerformMovesLog(d, e.id, act, next);
      PerformMovesSlot(d, e.id, act, next);
      hide Instr, After;
    } else {
      hide TaskAdvances;
    }
  }

  // ---- Runs grow at the end ----------------------------------------------------

  lemma {:induction false} PathSnoc(d: State, es: seq<Event>, d1: State, e: Event)
    requires Path(d, es, d1) && Enabled(d1, e)
    ensures Path(d, es + [e], Do(d1, e))
    decreases |es|
  {
    hide Do, Enabled;
    if es == [] {
      assert es + [e] == [e] && [e][1..] == [];
    } else {
      assert (es + [e])[0] == es[0] && (es + [e])[1..] == es[1..] + [e];
      PathSnoc(Do(d, es[0]), es[1..], d1, e);
    }
  }

  lemma ReachStep(d: State, e: Event)
    requires Reachable(d) && Enabled(d, e)
    ensures Reachable(Do(d, e))
  {
    hide Do, Enabled;
    var active, last :| LastFileIsOwn(last) && Leads(Init(active, last), d);
    var es :| Path(Init(active, last), es, d);
    PathSnoc(Init(active, last), es, d, e);
    assert Leads(Init(active, last), Do(d, e));
  }
}
