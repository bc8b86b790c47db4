/**
 The daemon composed with one sequential toggle client, as `toggle_once` drives it
 (`crates/zwhisper-hotkey/src/toggle.rs`), whatever the debouncer lets through.
 Anyone may stop a recording; only this client starts one.

 The client decides from two readings taken at different times, the daemon's status
 and the active-session file, while the daemon keeps moving. Three things can go
 wrong: the daemon fails to write the file, the client fails to read it, and the
 client gives up on a start call that the daemon still works on. `faults` records
 which have. Without them sessions never overlap, although the slot alone would let
 them; `AdmittedBesideExactly` says when they do.
 */
module NoOverlap {
  import opened Wrappers
  import opened SessionManagers
  import opened Protocol
  import opened ProtocolProofs

  /** Where `toggle_once` is suspended. */
  datatype Phase =
    | Ready
    | AskingStatus
    | SawBusy
    | SawRecording(id: SessionId)
    | SawIdle
    | NotDraining
    | HasProfile(profile: string)
    | StartPending
    | StopPending

  /** What the daemon answers to a start call. */
  datatype Answer = Began(id: SessionId) | Busy(holder: SessionId) | Refused

  /** The client's own start call, from its sending until the client has its answer or gives up. */
  datatype Own = NoCall | Queued | Holding(id: SessionId) | Answered(answer: Answer)

  datatype Fault = WriteFault | ReadFault | AbandonFault

  /**
     Beside the daemon and the client, what the statements speak of: `clean` if every
     removal of the active-session file succeeded, `saved` if every write of the
     last-session file did; the sessions whose active-session file was not written,
     and those whose start call was abandoned; whether the check of the file failed
     in the current press; and whether two sessions have been open at once.
   */
  datatype World = World(
    d: State,
    phase: Phase,
    own: Own,
    clean: bool,
    saved: bool,
    faults: set<Fault>,
    unwritten: set<SessionId>,
    strayed: set<SessionId>,
    misread: bool,
    overlapped: bool)

  /** `mine` says whether the queued call that is served is the client's current one. */
  datatype Move =
    | Daemon(e: Event, mine: bool)
    | Press
    | Status
    | ReadId(ok: bool)
    | CheckFile(ok: bool)
    | Profile(name: string)
    | SendStart
    | StartReturns
    | SendStop
    | StopReturns
    | Abort

  /** The client reads the file; an unknown schema version counts as absent. */
  predicate Readable(file: Option<ActiveFile>) {
    file.Some? && file.value.schemaVersion == SCHEMA_VERSION
  }

  /** How many of the queued calls are the client's current one. */
  function OwnQueued(own: Own): nat {
    if own.Queued? then 1 else 0
  }

  /** A queued call is the client's, or one it has abandoned. */
  predicate Serves(w: World, e: Event, mine: bool) {
    if e.Refuse? || e.Admit? then (if mine then w.own.Queued? else w.d.waiting > OwnQueued(w.own)) else !mine
  }

  predicate Possible(w: World, m: Move) {
    match m
    case Daemon(e, mine) => Enabled(w.d, e) && !e.Call? && Serves(w, e, mine)
    case Press => w.phase.Ready?
    case Status => w.phase.AskingStatus?
    case ReadId(_) => w.phase.SawBusy?
    case CheckFile(_) => w.phase.SawIdle?
    case Profile(_) => w.phase.NotDraining?
    case SendStart => w.phase.HasProfile?
    case StartReturns => w.phase.StartPending? && w.own.Answered?
    case SendStop => w.phase.SawRecording?
    case StopReturns => w.phase.StopPending?
    // an RPC fails in transit, or its caller gives up
    case Abort => true
  }

  /** A removal that fails leaves the file behind. */
  predicate LeavesFile(d: State, e: Event)
    requires Enabled(d, e)
  {
    e.Advance? && d.pcs[e.id].Closed? && e.choice != Proceed
  }

  /** A write of the last-session file that fails is skipped. */
  predicate SkipsSave(d: State, e: Event)
    requires Enabled(d, e)
  {
    && e.Advance? && e.choice != Proceed
    && (d.pcs[e.id].StoppingSent? || d.pcs[e.id].DrainedErr? || d.pcs[e.id].TranscriptReady?)
  }

  /** The active-session file is not written; the daemon only logs it. */
  predicate SkipsActive(d: State, e: Event)
    requires Enabled(d, e)
  {
    e.Advance? && d.pcs[e.id].RecorderUp? && e.choice != Proceed
  }

  /** The event puts a new session into the slot. */
  predicate Reserves(d: State, e: Event) {
    e.Admit? && d.mgr.slot.None?
  }

  /** A session that has neither ended nor given up. */
  predicate Open(pc: Pc) {
    !pc.Silent? && !pc.Rejected? && !pc.Finished?
  }

  predicate SomeOpen(d: State) {
    exists s | s in d.pcs :: Open(d.pcs[s])
  }

  /** The client's call after a daemon step. */
  function OwnAfter(w: World, e: Event, mine: bool): Own
    requires Enabled(w.d, e)
  {
    match e
    case Refuse => if mine then Answered(Refused) else w.own
    case Admit(id, _, _) =>
      if !mine then w.own
      else if w.d.mgr.slot.Some? then Answered(Busy(w.d.mgr.slot.value.sessionId))
      else Holding(id)
    case Advance(id, c) => Served(w.own, id, Instr(w.d.pcs[id], w.d.infos[id].auto, c).0)
    case _ => w.own
  }

  /** The call inside the start lock is answered when it returns. */
  function Served(own: Own, id: SessionId, act: Action): Own {
    if own == Holding(id) && Returns(act) then Answered(if act.Spawn? then Began(id) else Refused) else own
  }

  function DaemonMoves(w: World, e: Event, mine: bool): World
    requires Enabled(w.d, e)
  {
    World(Do(w.d, e), w.phase, OwnAfter(w, e, mine),
          w.clean && !LeavesFile(w.d, e),
          w.saved && !SkipsSave(w.d, e),
          if SkipsActive(w.d, e) then w.faults + {WriteFault} else w.faults,
          if SkipsActive(w.d, e) then w.unwritten + {e.id} else w.unwritten,
          if Reserves(w.d, e) && !mine then w.strayed + {e.id} else w.strayed,
          w.misread,
          w.overlapped || (Reserves(w.d, e) && SomeOpen(w.d)))
  }

  function Checked(w: World, ok: bool): World {
    var faults := if ok then w.faults else w.faults + {ReadFault};
    if ok && Readable(w.d.active) then w.(phase := Ready)
    else w.(phase := NotDraining, misread := w.misread || !ok, faults := faults)
  }

  /** A start call given up on before its answer goes on inside the daemon. */
  function Abandoned(w: World): World {
    match w.own
    case NoCall => w.(phase := Ready)
    case Answered(_) => w.(phase := Ready, own := NoCall)
    case Queued => w.(phase := Ready, own := NoCall, faults := w.faults + {AbandonFault})
    case Holding(id) =>
      w.(phase := Ready, own := NoCall, faults := w.faults + {AbandonFault}, strayed := w.strayed + {id})
  }

  function StartSent(w: World): World {
    w.(d := CallQueues(w.d), phase := StartPending, own := Queued)
  }

  function StopSent(w: World, id: SessionId): World {
    w.(d := StopArrives(w.d, id), phase := StopPending)
  }

  function Make(w: World, m: Move): World
    requires Possible(w, m)
  {
    match m
    case Daemon(e, mine) => DaemonMoves(w, e, mine)
    case Press => w.(phase := AskingStatus, misread := false)
    case Status => w.(phase := if w.d.mgr.slot.None? then SawIdle else SawBusy)
    case ReadId(ok) =>
      w.(phase := if ok && Readable(w.d.active) then SawRecording(w.d.active.value.sessionId) else Ready)
    case CheckFile(ok) => Checked(w, ok)
    case Profile(name) => w.(phase := if name == "" then Ready else HasProfile(name))
    case SendStart => StartSent(w)
    case StartReturns => w.(phase := Ready, own := NoCall)
    case SendStop => StopSent(w, w.phase.id)
    case StopReturns => w.(phase := Ready)
    case Abort => Abandoned(w)
  }

  ghost predicate Trail(w: World, ms: seq<Move>, w': World)
    decreases |ms|
  {
    if ms == [] then w == w'
    else Possible(w, ms[0]) && Trail(Make(w, ms[0]), ms[1..], w')
  }

  /** Started over any state files; `clean` if there was no active-session file. */
  function Boot(active: Option<ActiveFile>, last: Option<LastFile>): World {
    World(Init(active, last), Ready, NoCall, active.None?, true, {}, {}, {}, false, false)
  }

  ghost predicate Arises(w: World) {
    exists active, last, ms :: LastFileIsOwn(last) && Trail(Boot(active, last), ms, w)
  }

  lemma {:induction false} TrailSnoc(w: World, ms: seq<Move>, w1: World, m: Move)
    requires Trail(w, ms, w1) && Possible(w1, m)
    ensures Trail(w, ms + [m], Make(w1, m))
    decreases |ms|
  {
    hide Make, Possible;
    if ms == [] {
      assert ms + [m] == [m] && [m][1..] == [];
    } else {
      assert (ms + [m])[0] == ms[0] && (ms + [m])[1..] == ms[1..] + [m];
      TrailSnoc(Make(w, ms[0]), ms[1..], w1, m);
    }
  }

  lemma ArisesStep(w: World, m: Move)
    requires Arises(w) && Possible(w, m)
    ensures Arises(Make(w, m))
  {
    hide Make, Possible, Boot;
    var active, last, ms :| LastFileIsOwn(last) && Trail(Boot(active, last), ms, w);
    TrailSnoc(Boot(active, last), ms, w, m);
  }

  // ---- The invariant ---------------------------------------------------------------

  /** From before "recording" until after the terminal state, the file is this session's. */
  predicate HasFile(pc: Pc) {
    Open(pc) && !pc.Reserved? && !pc.StartingSent? && !pc.RecorderUp? && !pc.StartFailed? && !pc.StartFailedSent?
  }

  ghost predicate OneOpen(d: State) {
    forall s, t | s in d.pcs && t in d.pcs && Open(d.pcs[s]) && Open(d.pcs[t]) :: s == t
  }

  ghost predicate NoneOpen(d: State) {
    forall s | s in d.pcs :: !Open(d.pcs[s])
  }

  ghost predicate FileNames(d: State, s: SessionId) {
    s in d.infos && d.active == Some(ActiveFile(SCHEMA_VERSION, s, d.infos[s].profile))
  }

  ghost predicate FilesKept(d: State, unwritten: set<SessionId>) {
    forall s | s in d.pcs && HasFile(d.pcs[s]) && s !in unwritten :: FileNames(d, s)
  }

  /** With every removal succeeding, the file is there only for a session that has written it. */
  ghost predicate NoStaleFile(d: State, unwritten: set<SessionId>) {
    d.active.Some? ==>
      var s := d.active.value.sessionId;
      s in d.pcs && HasFile(d.pcs[s]) && s !in unwritten && d.active.value.schemaVersion == SCHEMA_VERSION
  }

  /** The file of `s` was not written, or its start was abandoned, or the check of the file failed. */
  predicate Excused(w: World, s: SessionId) {
    s in w.unwritten || s in w.strayed || w.misread
  }

  /** The client has passed the check of the file and its call has not been served. */
  predicate Passed(w: World) {
    w.phase.NotDraining? || w.phase.HasProfile? || w.own.Queued?
  }

  /** What the client has read of the sessions it did not abandon is still true. */
  ghost predicate Knows(w: World) {
    && (w.phase.SawIdle? ==>
          forall s | s in w.d.pcs && Open(w.d.pcs[s]) && s !in w.strayed ::
            !HoldsSlot(w.d.pcs[s]) && !InStart(w.d.pcs[s]))
    && (Passed(w) ==> forall s | s in w.d.pcs && Open(w.d.pcs[s]) :: Excused(w, s))
  }

  /** Whose calls the daemon is working on. */
  ghost predicate CallsOwned(w: World) {
    && (w.phase.StartPending? <==> !w.own.NoCall?)
    && OwnQueued(w.own) <= w.d.waiting
    && (w.own.Holding? ==> w.d.startLock == Some(w.own.id))
    && (w.d.startLock.Some? && !w.own.Holding? ==> w.d.startLock.value in w.strayed)
  }

  predicate PastWrite(pc: Pc) {
    !pc.Reserved? && !pc.StartingSent? && !pc.RecorderUp?
  }

  /** A session whose file was not written is past the write. */
  ghost predicate UnwrittenPast(d: State, unwritten: set<SessionId>) {
    forall s | s in unwritten :: s in d.pcs && PastWrite(d.pcs[s])
  }

  ghost predicate FaultsKept(w: World) {
    && (WriteFault !in w.faults ==> w.unwritten == {})
    && (ReadFault !in w.faults ==> !w.misread)
    && (AbandonFault !in w.faults ==> w.strayed == {} && w.d.waiting == OwnQueued(w.own))
  }

  /** A word that says all it will: ended, silently given up, or never begun. */
  predicate SaidAll(word: seq<Letter>) {
    || word == []
    || word == [Reserve, Release]
    || word[|word| - 1] == Idle
    || word[|word| - 1] == Failed
  }

  /** Whenever a session reserves the slot, every other has said all it will. */
  ghost predicate Sequential(log: seq<Entry>) {
    forall k, s | 0 <= k < |log| && log[k].letter == Reserve && s != log[k].session ::
      SaidAll(Project(log[..k], s))
  }

  /** What holds until two sessions have overlapped. */
  ghost predicate Apart(w: World) {
    && OneOpen(w.d)
    && FilesKept(w.d, w.unwritten)
    && (w.clean ==> NoStaleFile(w.d, w.unwritten))
    && Knows(w)
    && Sequential(w.d.log)
  }

  ghost predicate WorldInv(w: World) {
    && Inv(w.d)
    && CallsOwned(w)
    && FaultsKept(w)
    && UnwrittenPast(w.d, w.unwritten)
    && (!w.overlapped ==> Apart(w))
    && (w.faults == {} ==> !w.overlapped)
  }

  // ---- A step of a session's task keeps it ---------------------------------------------

  /** What one instruction does to the file, the slot and the start lock. */
  ghost predicate FileFacts(pc: Pc, act: Action, next: Pc) {
    && Open(pc)
    && (HasFile(next) ==> HasFile(pc) || act.SaveActive?)
    && (act.SaveActive? ==> HasFile(next) && !HasFile(pc))
    && (act.ClearActive? ==> HasFile(pc) && !HasFile(next))
    && (HasFile(pc) && !HasFile(next) ==> act.ClearActive?)
  }

  ghost predicate PastFacts(pc: Pc, act: Action, next: Pc) {
    && (act.SaveActive? ==> !PastWrite(pc) && PastWrite(next))
    && (PastWrite(pc) ==> PastWrite(next))
  }

  lemma StartFileFacts(pc: Pc, auto: bool, c: Choice)
    requires InStart(pc)
    ensures FileFacts(pc, Instr(pc, auto, c).0, Instr(pc, auto, c).1)
  {
  }

  lemma BranchFileFacts(pc: Pc, auto: bool, c: Choice)
    requires Branches(pc)
    ensures FileFacts(pc, Instr(pc, auto, c).0, Instr(pc, auto, c).1)
  {
  }

  lemma LifecycleFileFacts(pc: Pc, auto: bool, c: Choice)
    requires Live(pc) && !Branches(pc)
    ensures FileFacts(pc, Instr(pc, auto, c).0, Instr(pc, auto, c).1)
  {
  }

  lemma InstrFileFacts(pc: Pc, auto: bool, c: Choice)
    requires !Halted(pc)
    ensures FileFacts(pc, Instr(pc, auto, c).0, Instr(pc, auto, c).1)
  {
    hide FileFacts, Instr, InStart;
    if InStart(pc) {
      StartFileFacts(pc, auto, c);
    } else if Branches(pc) {
      BranchFileFacts(pc, auto, c);
    } else {
      LifecycleFileFacts(pc, auto, c);
    }
  }

  lemma InstrPastFacts(pc: Pc, auto: bool, c: Choice)
    requires !Halted(pc)
    ensures PastFacts(pc, Instr(pc, auto, c).0, Instr(pc, auto, c).1)
  {
  }

  lemma InstrFailures(pc: Pc, auto: bool, c: Choice)
    requires !Halted(pc)
    ensures Instr(pc, auto, c).0 == ClearActive(false) <==> pc.Closed? && c != Proceed
    ensures Instr(pc, auto, c).0 == SaveActive(false) <==> pc.RecorderUp? && c != Proceed
  {
  }

  lemma PerformMovesFile(d: State, id: SessionId, act: Action, next: Pc)
    requires id in d.infos
    ensures
      var d' := After(d, id, act, next);
      && d'.pcs == d.pcs[id := next] && d'.infos == d.infos && d'.waiting == d.waiting
      && d'.startLock == (if Returns(act) then None else d.startLock)
      && d'.active == (if act == SaveActive(true) then Some(ActiveFile(SCHEMA_VERSION, id, d.infos[id].profile))
                       else if act == ClearActive(true) then None
                       else d.active)
  {
  }

  /** The sessions whose file was not written, after `id` performs `act`. */
  function Unwritten(unwritten: set<SessionId>, id: SessionId, act: Action): set<SessionId> {
    if act == SaveActive(false) then unwritten + {id} else unwritten
  }

  lemma AdvanceKeepsFile(d: State, id: SessionId, act: Action, next: Pc, unwritten: set<SessionId>)
    requires OneOpen(d) && FilesKept(d, unwritten) && id in d.pcs && id in d.infos
    requires FileFacts(d.pcs[id], act, next)
    ensures var d' := After(d, id, act, next);
            OneOpen(d') && FilesKept(d', Unwritten(unwritten, id, act))
  {
    PerformMovesFile(d, id, act, next);
    assert forall s | s in d.pcs :: HasFile(d.pcs[s]) ==> Open(d.pcs[s]);
    hide After, Open, HasFile, Returns, PastWrite;
  }

  lemma AdvanceKeepsNoStale(d: State, id: SessionId, act: Action, next: Pc, unwritten: set<SessionId>)
    requires OneOpen(d) && NoStaleFile(d, unwritten) && UnwrittenPast(d, unwritten) && id in d.pcs && id in d.infos
    requires FileFacts(d.pcs[id], act, next) && PastFacts(d.pcs[id], act, next) && act != ClearActive(false)
    ensures NoStaleFile(After(d, id, act, next), Unwritten(unwritten, id, act))
  {
    PerformMovesFile(d, id, act, next);
    assert forall s | s in d.pcs :: HasFile(d.pcs[s]) ==> Open(d.pcs[s]);
    hide After, Open, HasFile, Returns, PastWrite;
  }

  lemma AdvanceKeepsPast(d: State, id: SessionId, act: Action, next: Pc, unwritten: set<SessionId>)
    requires UnwrittenPast(d, unwritten) && id in d.pcs && id in d.infos && PastFacts(d.pcs[id], act, next)
    ensures UnwrittenPast(After(d, id, act, next), Unwritten(unwritten, id, act))
  {
    PerformMovesFile(d, id, act, next);
    hide After, Open, HasFile, Returns, PastWrite;
  }

  lemma ClosedSaidAll(pc: Pc)
    requires !Open(pc)
    ensures SaidAll(Word(pc))
  {
  }

  lemma {:induction false} SequentialSnoc(log: seq<Entry>, e: Entry)
    requires Sequential(log)
    requires e.letter == Reserve ==> forall s | s != e.session :: SaidAll(Project(log, s))
    ensures Sequential(log + [e])
  {
    var log' := log + [e];
    forall k, s | 0 <= k < |log'| && log'[k].letter == Reserve && s != log'[k].session
      ensures SaidAll(Project(log'[..k], s))
    {
      assert log'[..k] == log[..k];
      assert log[..|log|] == log;
    }
  }

  lemma AdvanceKeepsSequential(d: State, id: SessionId, act: Action, next: Pc)
    requires Sequential(d.log) && id in d.infos
    requires act.Say? ==> act.letter != Reserve
    ensures Sequential(After(d, id, act, next).log)
  {
    var more := PerformMovesLog(d, id, act, next);
    hide After, Perform, Sequential;
    if more == [] {
      assert d.log + more == d.log;
    } else {
      assert more[0].letter == Said(act)[0];
      SequentialSnoc(d.log, more[0]);
    }
  }

  /** The world after the task of `id` performs `act` and is suspended at `next`. */
  ghost predicate TaskMoved(w: World, id: SessionId, act: Action, next: Pc, w': World) {
    && id in w.d.pcs && id in w.d.infos
    && w'.d == After(w.d, id, act, next)
    && w'.phase == w.phase && w'.own == Served(w.own, id, act)
    && (w'.clean ==> w.clean && act != ClearActive(false))
    && w'.unwritten == Unwritten(w.unwritten, id, act) && w'.strayed == w.strayed && w'.misread == w.misread
    && w'.faults == (if act == SaveActive(false) then w.faults + {WriteFault} else w.faults)
    && w'.overlapped == w.overlapped
  }

  lemma TaskMoves(w: World, id: SessionId, c: Choice)
    requires Possible(w, Daemon(Advance(id, c), false))
    ensures
      var (act, next) := Instr(w.d.pcs[id], w.d.infos[id].auto, c);
      TaskMoved(w, id, act, next, DaemonMoves(w, Advance(id, c), false))
  {
    InstrFailures(w.d.pcs[id], w.d.infos[id].auto, c);
    hide Instr, After, Halted;
  }

  lemma TaskKeepsKnows(w: World, id: SessionId, act: Action, next: Pc, w': World)
    requires Knows(w) && TaskMoved(w, id, act, next, w') && Open(w.d.pcs[id])
    requires SlotFacts(w.d.pcs[id], act, next) && CallFacts(w.d.pcs[id], act, next)
    ensures Knows(w')
  {
    PerformMovesFile(w.d, id, act, next);
    hide After, Open, HoldsSlot, InStart, Live, Returns, Frees, SlotLetter;
  }

  lemma TaskKeepsCalls(w: World, id: SessionId, act: Action, next: Pc, w': World)
    requires CallsOwned(w) && FaultsKept(w) && TaskMoved(w, id, act, next, w')
    requires CallFacts(w.d.pcs[id], act, next) && (InStart(w.d.pcs[id]) ==> w.d.startLock == Some(id))
    ensures CallsOwned(w') && FaultsKept(w')
  {
    PerformMovesFile(w.d, id, act, next);
    hide After, InStart, Live;
  }

  lemma TaskKeepsApart(w: World, id: SessionId, act: Action, next: Pc, w': World)
    requires Apart(w) && UnwrittenPast(w.d, w.unwritten) && TaskMoved(w, id, act, next, w')
    requires SlotFacts(w.d.pcs[id], act, next) && CallFacts(w.d.pcs[id], act, next)
    requires FileFacts(w.d.pcs[id], act, next) && PastFacts(w.d.pcs[id], act, next)
    ensures Apart(w')
  {
    hide OneOpen, FilesKept, NoStaleFile, UnwrittenPast, Sequential, After, Unwritten, Served, HoldsSlot, CallFacts;
    hide Knows, Open, HasFile, PastWrite;
    AdvanceKeepsFile(w.d, id, act, next, w.unwritten);
    if w'.clean {
      AdvanceKeepsNoStale(w.d, id, act, next, w.unwritten);
    }
    AdvanceKeepsSequential(w.d, id, act, next);
    TaskKeepsKnows(w, id, act, next, w');
  }

  lemma InStartHoldsLock(d: State, id: SessionId)
    requires GuardsCounted(d) && id in d.pcs
    ensures InStart(d.pcs[id]) ==> d.startLock == Some(id)
  {
  }

  lemma AdvanceKeepsWorld(w: World, id: SessionId, c: Choice)
    requires WorldInv(w) && Possible(w, Daemon(Advance(id, c), false))
    ensures WorldInv(DaemonMoves(w, Advance(id, c), false))
  {
    var w' := DaemonMoves(w, Advance(id, c), false);
    var (act, next) := Instr(w.d.pcs[id], w.d.infos[id].auto, c);
    TaskMoves(w, id, c);
    assert GuardsCounted(w.d);
    hide DaemonMoves, Possible, After, Apart, CallsOwned, FaultsKept, UnwrittenPast, GuardsCounted, InStart, Unwritten;
    hide SlotFacts, CallFacts, FileFacts, PastFacts, Served, Inv, Instr;
    AdvanceKeepsInv(w.d, id, c);
    InStartHoldsLock(w.d, id);
    InstrFileFacts(w.d.pcs[id], w.d.infos[id].auto, c);
    InstrPastFacts(w.d.pcs[id], w.d.infos[id].auto, c);
    InstrSlotFacts(w.d.pcs[id], w.d.infos[id].auto, c);
    InstrCallFacts(w.d.pcs[id], w.d.infos[id].auto, c);
    TaskKeepsCalls(w, id, act, next, w');
    AdvanceKeepsPast(w.d, id, act, next, w.unwritten);
    if !w.overlapped {
      TaskKeepsApart(w, id, act, next, w');
    }
  }

  // ---- So does a new session ---------------------------------------------------------------

  lemma ReserveKeepsFiles(d: State, id: SessionId, profile: string, auto: bool, unwritten: set<SessionId>)
    requires FilesKept(d, unwritten) && NoneOpen(d) && UnwrittenPast(d, unwritten) && d.waiting > 0 && id !in d.pcs
    ensures var d' := CallReserves(d, id, profile, auto);
            && OneOpen(d') && FilesKept(d', unwritten) && UnwrittenPast(d', unwritten)
            && (NoStaleFile(d, unwritten) ==> NoStaleFile(d', unwritten))
  {
    assert !HasFile(Reserved);
    assert forall s | s in d.pcs :: !HasFile(d.pcs[s]);
    hide HasFile, Open, OutputPath, PastWrite;
  }

  lemma ReserveKeepsPast(d: State, id: SessionId, profile: string, auto: bool, unwritten: set<SessionId>)
    requires UnwrittenPast(d, unwritten) && d.waiting > 0 && id !in d.pcs
    ensures UnwrittenPast(CallReserves(d, id, profile, auto), unwritten)
  {
    hide OutputPath, PastWrite;
  }

  lemma ReserveKeepsSequential(d: State, id: SessionId, profile: string, auto: bool)
    requires Sequential(d.log) && WordsKept(d) && NoneOpen(d) && d.waiting > 0
    ensures Sequential(CallReserves(d, id, profile, auto).log)
  {
    hide Sequential, OutputPath;
    forall s | s != id
      ensures SaidAll(Project(d.log, s))
    {
      if s in d.pcs {
        ClosedSaidAll(d.pcs[s]);
      }
    }
    SequentialSnoc(d.log, Entry(id, Reserve, ""));
  }

  // A call that is served is the client's, which has passed the check, or one it has abandoned.
  lemma ReserveKeepsCalls(w: World, e: Event, mine: bool)
    requires CallsOwned(w) && FaultsKept(w) && Possible(w, Daemon(e, mine)) && Reserves(w.d, e)
    ensures CallsOwned(DaemonMoves(w, e, mine)) && FaultsKept(DaemonMoves(w, e, mine))
  {
    hide OutputPath;
  }

  lemma ReserveKeepsKnows(w: World, e: Event, mine: bool)
    requires CallsOwned(w) && Knows(w) && Possible(w, Daemon(e, mine)) && Reserves(w.d, e)
    ensures Knows(DaemonMoves(w, e, mine))
  {
    hide OutputPath, Open, HoldsSlot, InStart;
  }

  lemma SomeOrNone(d: State)
    ensures SomeOpen(d) <==> !NoneOpen(d)
  {
  }

  // The client's own call, with no fault, finds every session ended.
  lemma NoFaultNoneOpen(w: World, e: Event, mine: bool)
    requires CallsOwned(w) && FaultsKept(w) && Knows(w) && Possible(w, Daemon(e, mine)) && Reserves(w.d, e)
    requires w.faults == {}
    ensures NoneOpen(w.d)
  {
    hide Open, HoldsSlot, InStart;
  }

  lemma ReserveKeepsApart(w: World, e: Event, mine: bool)
    requires Apart(w) && CallsOwned(w) && WordsKept(w.d) && UnwrittenPast(w.d, w.unwritten)
    requires Possible(w, Daemon(e, mine)) && Reserves(w.d, e) && NoneOpen(w.d)
    ensures Apart(DaemonMoves(w, e, mine))
  {
    ReserveKeepsFiles(w.d, e.id, e.profile, e.auto, w.unwritten);
    ReserveKeepsSequential(w.d, e.id, e.profile, e.auto);
    ReserveKeepsKnows(w, e, mine);
    hide OneOpen, FilesKept, NoStaleFile, UnwrittenPast, Sequential, Knows, NoneOpen, WordsKept, CallReserves, SomeOpen;
  }

  lemma InvParts(d: State)
    requires Inv(d)
    ensures WordsKept(d) && SlotOwned(d) && GuardsCounted(d)
  {
    hide Domains, SlotOwned, HookOwned, GuardsCounted, TasksRegistered, StopsPrecise, WordsKept, LogOwned, PathsOwned;
  }

  lemma ReserveKeepsWorld(w: World, e: Event, mine: bool)
    requires WorldInv(w) && Possible(w, Daemon(e, mine)) && Reserves(w.d, e)
    ensures WorldInv(DaemonMoves(w, e, mine))
  {
    var w' := DaemonMoves(w, e, mine);
    assert w'.d == CallReserves(w.d, e.id, e.profile, e.auto);
    assert w'.unwritten == w.unwritten && w'.faults == w.faults;
    assert w'.overlapped == (w.overlapped || SomeOpen(w.d));
    assert w.d.waiting > 0 && w.d.mgr.slot.None? && w.d.startLock.None?;
    assert e.id !in w.d.pcs && e.id != "" && e.profile != "";
    hide Inv, Apart, CallsOwned, FaultsKept, UnwrittenPast, DaemonMoves, CallReserves, SomeOpen, NoneOpen;
    hide WordsKept, Knows, SlotOwned, GuardsCounted, Possible, Reserves;
    InvParts(w.d);
    SomeOrNone(w.d);
    ReserveKeepsInv(w.d, e.id, e.profile, e.auto);
    ReserveKeepsCalls(w, e, mine);
    ReserveKeepsPast(w.d, e.id, e.profile, e.auto, w.unwritten);
    if w.faults == {} {
      ApartKnows(w);
      NoFaultNoneOpen(w, e, mine);
    }
    if !w'.overlapped {
      ReserveKeepsApart(w, e, mine);
    }
  }

  lemma ApartKnows(w: World)
    requires Apart(w)
    ensures Knows(w)
  {
  }

  // ---- So does every other step of the daemon ------------------------------------------------

  /** `d'` differs from `d` in nothing the client can see, but for calls that have failed. */
  ghost predicate SameToClient(d: State, d': State) {
    && d'.pcs == d.pcs && d'.infos == d.infos && d'.active == d.active && d'.mgr.slot == d.mgr.slot
    && d'.startLock == d.startLock && d'.log == d.log
  }

  lemma SameKeepsApart(w: World, w': World)
    requires Apart(w) && SameToClient(w.d, w'.d)
    requires w'.unwritten == w.unwritten && w'.clean == w.clean && Knows(w')
    ensures Apart(w')
  {
    hide Open, HasFile, Sequential, Knows;
  }

  /** Steps that run no session's program and reserve nothing. */
  predicate Bystander(d: State, e: Event) {
    !e.Advance? && !Reserves(d, e)
  }

  lemma ShutdownIsSame(d: State)
    ensures SameToClient(d, TasksTaken(DrainRequested(d))) && TasksTaken(DrainRequested(d)).waiting == d.waiting
  {
  }

  lemma StopsAreSame(d: State, asked: SessionId, fire: Fire, id: SessionId)
    ensures SameToClient(d, StopArrives(d, asked)) && StopArrives(d, asked).waiting == d.waiting
    ensures SameToClient(d, HookFires(d, fire)) && HookFires(d, fire).waiting == d.waiting
    ensures SameToClient(d, RecorderEnds(d, id)) && RecorderEnds(d, id).waiting == d.waiting
    ensures d.waiting > 0 ==> SameToClient(d, CallFails(d)) && CallFails(d).waiting == d.waiting - 1
    ensures SameToClient(d, CallQueues(d)) && CallQueues(d).waiting == d.waiting + 1
  {
  }

  lemma BystanderIsSame(d: State, e: Event)
    requires Enabled(d, e) && Bystander(d, e) && !e.Call?
    ensures SameToClient(d, Do(d, e))
    ensures Do(d, e).waiting == if e.Refuse? || e.Admit? then d.waiting - 1 else d.waiting
  {
    hide TaskAdvances, CallReserves, HasRecorder, SameToClient, StopArrives, HookFires, RecorderEnds, CallFails;
    hide TasksTaken, DrainRequested, CallQueues;
    match e
    case StopCall(asked) => StopsAreSame(d, asked, Fire("", ""), "");
    case FireHook(fire) => StopsAreSame(d, "", fire, "");
    case RecorderStops(id) => StopsAreSame(d, "", Fire("", ""), id);
    case ShutdownTakes => ShutdownIsSame(d);
    case _ => StopsAreSame(d, "", Fire("", ""), "");
  }

  /** What a bystander does to the rest of the world. */
  ghost predicate StoodBy(w: World, w': World) {
    && SameToClient(w.d, w'.d) && w'.phase == w.phase && w'.clean == w.clean && w'.faults == w.faults
    && w'.unwritten == w.unwritten && w'.strayed == w.strayed && w'.misread == w.misread
    && w'.overlapped == w.overlapped
    && (w'.own == w.own || (w.own.Queued? && w'.own.Answered?))
    && w'.d.waiting - OwnQueued(w'.own) <= w.d.waiting - OwnQueued(w.own)
    && OwnQueued(w'.own) <= w'.d.waiting
  }

  lemma BystanderStandsBy(w: World, e: Event, mine: bool)
    requires Possible(w, Daemon(e, mine)) && Bystander(w.d, e) && OwnQueued(w.own) <= w.d.waiting
    ensures StoodBy(w, DaemonMoves(w, e, mine))
  {
    BystanderIsSame(w.d, e);
    hide Do, SameToClient, SomeOpen;
  }

  lemma StoodByKeeps(w: World, w': World)
    requires WorldInv(w) && StoodBy(w, w') && Inv(w'.d)
    ensures WorldInv(w')
  {
    hide Inv, OneOpen, FilesKept, NoStaleFile, Sequential, Open, HoldsSlot, InStart, HasFile, PastWrite;
    if !w.overlapped {
      assert Knows(w');
      SameKeepsApart(w, w');
    }
  }

  lemma BystanderKeepsWorld(w: World, e: Event, mine: bool)
    requires WorldInv(w) && Possible(w, Daemon(e, mine)) && Bystander(w.d, e)
    ensures WorldInv(DaemonMoves(w, e, mine))
  {
    hide Inv, Do, Apart, FaultsKept, UnwrittenPast, StoodBy;
    StepKeepsInv(w.d, e);
    BystanderStandsBy(w, e, mine);
    StoodByKeeps(w, DaemonMoves(w, e, mine));
  }

  lemma DaemonKeepsWorld(w: World, e: Event, mine: bool)
    requires WorldInv(w) && Possible(w, Daemon(e, mine))
    ensures WorldInv(DaemonMoves(w, e, mine))
  {
    hide WorldInv, DaemonMoves;
    if e.Advance? {
      AdvanceKeepsWorld(w, e.id, e.choice);
    } else if Reserves(w.d, e) {
      ReserveKeepsWorld(w, e, mine);
    } else {
      BystanderKeepsWorld(w, e, mine);
    }
  }

  // ---- And every move of the client -----------------------------------------------------------

  // The client saw the slot free, and now reads no file: every session that is still open was started by a
  // call it abandoned, or its file was not written.
  lemma NoFileMeansExcused(w: World, s: SessionId)
    requires WorldInv(w) && !w.overlapped && w.phase.SawIdle? && !Readable(w.d.active)
    requires s in w.d.pcs && Open(w.d.pcs[s])
    ensures s in w.strayed || s in w.unwritten
  {
    hide Inv, NoStaleFile, Sequential;
    assert s !in w.strayed ==> HasFile(w.d.pcs[s]);
    assert s !in w.strayed && s !in w.unwritten ==> FileNames(w.d, s);
  }

  // Moves that leave the daemon alone keep what does not speak of the client.
  lemma SameDaemonKeeps(w: World, w': World)
    requires WorldInv(w) && CallsOwned(w') && FaultsKept(w') && (!w.overlapped ==> Knows(w'))
    requires w'.d == w.d && w'.clean == w.clean && w'.unwritten == w.unwritten && w'.overlapped == w.overlapped
    requires w.faults <= w'.faults
    ensures WorldInv(w')
  {
    hide Inv, OneOpen, FilesKept, NoStaleFile, Sequential, Knows, UnwrittenPast, CallsOwned, FaultsKept;
  }

  lemma CheckKnows(w: World, ok: bool)
    requires WorldInv(w) && !w.overlapped && w.phase.SawIdle?
    ensures Knows(Checked(w, ok))
  {
    hide WorldInv, Open, HoldsSlot, InStart, Readable;
    assert w.own.NoCall? by { IdleHasNoCall(w); }
    if ok && !Readable(w.d.active) {
      forall s | s in w.d.pcs && Open(w.d.pcs[s])
        ensures Excused(w, s)
      {
        NoFileMeansExcused(w, s);
      }
    }
  }

  lemma IdleHasNoCall(w: World)
    requires WorldInv(w) && w.phase.SawIdle?
    ensures w.own.NoCall?
  {
    hide Inv, Apart, FaultsKept, UnwrittenPast;
  }

  lemma CheckKeepsWorld(w: World, ok: bool)
    requires WorldInv(w) && w.phase.SawIdle?
    ensures WorldInv(Checked(w, ok))
  {
    hide Inv, Apart, Readable, UnwrittenPast, Knows;
    if !w.overlapped {
      CheckKnows(w, ok);
    }
    SameDaemonKeeps(w, Checked(w, ok));
  }

  // With the slot free, an open session is inside the start lock only if its call was abandoned.
  lemma StatusKnows(w: World)
    requires SlotOwned(w.d) && GuardsCounted(w.d) && CallsOwned(w) && w.phase.AskingStatus? && w.d.mgr.slot.None?
    ensures Knows(w.(phase := SawIdle))
  {
    hide Open, HoldsSlot, InStart;
  }

  lemma BusyKnows(w: World)
    requires w.own.NoCall?
    ensures Knows(w.(phase := SawBusy))
  {
  }

  lemma StatusKeepsWorld(w: World)
    requires WorldInv(w) && w.phase.AskingStatus?
    ensures WorldInv(Make(w, Status))
  {
    hide Inv, Apart, UnwrittenPast, Knows, SlotOwned, GuardsCounted, WordsKept;
    InvParts(w.d);
    if w.d.mgr.slot.None? {
      StatusKnows(w);
    } else {
      BusyKnows(w);
    }
    SameDaemonKeeps(w, Make(w, Status));
  }

  /** `w'` is `w` with `d'` for `d`, which differ in nothing the client can see but the calls queued. */
  lemma SameToClientKeeps(w: World, w': World)
    requires WorldInv(w) && SameToClient(w.d, w'.d) && Inv(w'.d) && CallsOwned(w') && FaultsKept(w')
    requires (!w.overlapped ==> Knows(w'))
    requires w'.clean == w.clean && w'.unwritten == w.unwritten
    requires w'.overlapped == w.overlapped && w'.faults == w.faults
    ensures WorldInv(w')
  {
    hide Inv, OneOpen, FilesKept, NoStaleFile, Sequential, Knows, UnwrittenPast, CallsOwned, FaultsKept, SameToClient;
    assert UnwrittenPast(w'.d, w'.unwritten) by { SamePast(w.d, w'.d, w.unwritten); }
    if !w.overlapped {
      SameKeepsApart(w, w');
    }
  }

  lemma SamePast(d: State, d': State, unwritten: set<SessionId>)
    requires SameToClient(d, d') && UnwrittenPast(d, unwritten)
    ensures UnwrittenPast(d', unwritten)
  {
  }

  lemma SameKnows(w: World, w': World)
    requires SameToClient(w.d, w'.d) && (Passed(w') ==> Passed(w) && Knows(w)) && !w'.phase.SawIdle?
    requires w'.unwritten == w.unwritten && w'.strayed == w.strayed && w'.misread == w.misread
    ensures Knows(w')
  {
    hide Open, HoldsSlot, InStart;
  }

  /** What a request of the client does to the rest of the world. */
  ghost predicate Asked(w: World, w': World) {
    && SameToClient(w.d, w'.d) && CallsOwned(w') && FaultsKept(w') && (Knows(w) ==> Knows(w'))
    && w'.clean == w.clean && w'.unwritten == w.unwritten && w'.overlapped == w.overlapped && w'.faults == w.faults
  }

  lemma StartIsAsked(w: World)
    requires CallsOwned(w) && FaultsKept(w) && w.phase.HasProfile?
    ensures Asked(w, StartSent(w)) && StartSent(w).d == CallQueues(w.d)
  {
    StopsAreSame(w.d, "", Fire("", ""), "");
    hide CallQueues, Knows;
    SameKnowsToo(w, StartSent(w));
    hide SameToClient;
    assert StartSent(w).d.startLock == w.d.startLock by { SameLock(w.d, CallQueues(w.d)); }
  }

  lemma StopIsAsked(w: World, id: SessionId)
    requires CallsOwned(w) && FaultsKept(w) && w.phase.SawRecording?
    ensures Asked(w, StopSent(w, id)) && StopSent(w, id).d == StopArrives(w.d, id)
  {
    StopsAreSame(w.d, id, Fire("", ""), "");
    hide StopArrives, Knows;
    SameKnowsToo(w, StopSent(w, id));
    hide SameToClient;
    assert StopSent(w, id).d.startLock == w.d.startLock by { SameLock(w.d, StopArrives(w.d, id)); }
  }

  lemma SameLock(d: State, d': State)
    requires SameToClient(d, d')
    ensures d'.startLock == d.startLock
  {
  }

  lemma SameKnowsToo(w: World, w': World)
    requires SameToClient(w.d, w'.d) && (Passed(w') ==> Passed(w)) && !w'.phase.SawIdle?
    requires w'.unwritten == w.unwritten && w'.strayed == w.strayed && w'.misread == w.misread
    ensures Knows(w) ==> Knows(w')
  {
    hide Knows, SameToClient;
    if Knows(w) {
      SameKnows(w, w');
    }
  }

  lemma AskedKeepsWorld(w: World, w': World)
    requires WorldInv(w) && Asked(w, w') && Inv(w'.d)
    ensures WorldInv(w')
  {
    hide Inv, UnwrittenPast, Knows, SameToClient, CallsOwned, FaultsKept;
    if !w.overlapped {
      ApartKnows(w);
    }
    hide Apart;
    SameToClientKeeps(w, w');
  }

  lemma SendStartKeepsWorld(w: World)
    requires WorldInv(w) && w.phase.HasProfile?
    ensures WorldInv(StartSent(w))
  {
    hide Inv, Asked, StartSent, Apart, UnwrittenPast, CallsOwned, FaultsKept, CallQueues;
    CallsKeepInv(w.d);
    StartIsAsked(w);
    AskedKeepsWorld(w, StartSent(w));
  }

  lemma SendStopKeepsWorld(w: World, id: SessionId)
    requires WorldInv(w) && w.phase.SawRecording?
    ensures WorldInv(StopSent(w, id))
  {
    hide Inv, Asked, StopSent, Apart, UnwrittenPast, CallsOwned, FaultsKept, StopArrives;
    StepKeepsInv(w.d, StopCall(id));
    StopIsAsked(w, id);
    AskedKeepsWorld(w, StopSent(w, id));
  }

  /** The client moves on, and knows no more of the sessions than it did. */
  ghost predicate MovesOn(w: World, w': World) {
    && w'.d == w.d && w'.clean == w.clean && w'.unwritten == w.unwritten
    && w'.overlapped == w.overlapped && w.faults <= w'.faults && CallsOwned(w') && FaultsKept(w')
    && !w'.phase.SawIdle? && !w'.phase.NotDraining? && !w'.own.Queued?
    && (w'.phase.HasProfile? ==> w.phase.NotDraining? && w'.strayed == w.strayed && w'.misread == w.misread)
  }

  lemma MovingOnKnows(w: World, w': World)
    requires MovesOn(w, w') && Knows(w)
    ensures Knows(w')
  {
    hide CallsOwned, FaultsKept, Open, HoldsSlot, InStart;
  }

  lemma MovingOnKeepsWorld(w: World, w': World)
    requires WorldInv(w) && MovesOn(w, w')
    ensures WorldInv(w')
  {
    hide Inv, UnwrittenPast, CallsOwned, FaultsKept, Knows;
    if !w.overlapped {
      ApartKnows(w);
      MovingOnKnows(w, w');
    }
    hide Apart;
    SameDaemonKeeps(w, w');
  }

  lemma AbandonKeepsCalls(w: World)
    requires CallsOwned(w) && FaultsKept(w)
    ensures CallsOwned(Abandoned(w)) && FaultsKept(Abandoned(w))
  {
  }

  lemma OtherMovesMoveOn(w: World, m: Move)
    requires CallsOwned(w) && FaultsKept(w) && Possible(w, m)
    requires !m.Daemon? && !m.Status? && !m.CheckFile? && !m.SendStart? && !m.SendStop?
    ensures MovesOn(w, Make(w, m))
  {
    if m.Abort? {
      AbandonKeepsCalls(w);
    }
  }

  lemma ClientKeepsWorld(w: World, m: Move)
    requires WorldInv(w) && Possible(w, m) && !m.Daemon?
    ensures WorldInv(Make(w, m))
  {
    hide Inv, Apart, CallsOwned, FaultsKept, UnwrittenPast, StartSent, StopSent, Checked, Abandoned, MovesOn;
    if m.Status? {
      StatusKeepsWorld(w);
    } else if m.CheckFile? {
      CheckKeepsWorld(w, m.ok);
    } else if m.SendStart? {
      SendStartKeepsWorld(w);
    } else if m.SendStop? {
      SendStopKeepsWorld(w, w.phase.id);
    } else {
      OtherMovesMoveOn(w, m);
      hide WorldInv, Make;
      MovingOnKeepsWorld(w, Make(w, m));
    }
  }

  lemma {:induction false} TrailKeepsWorld(w: World, ms: seq<Move>, w': World)
    requires WorldInv(w) && Trail(w, ms, w')
    ensures WorldInv(w')
    decreases |ms|
  {
    if ms != [] {
      hide WorldInv, Possible;
      MoveKeepsWorld(w, ms[0]);
      hide Make;
      TrailKeepsWorld(Make(w, ms[0]), ms[1..], w');
    }
  }

  lemma MoveKeepsWorld(w: World, m: Move)
    requires WorldInv(w) && Possible(w, m)
    ensures WorldInv(Make(w, m))
  {
    hide WorldInv, DaemonMoves, Checked, Abandoned;
    if m.Daemon? {
      DaemonKeepsWorld(w, m.e, m.mine);
    } else {
      ClientKeepsWorld(w, m);
    }
  }

  lemma BootHolds(active: Option<ActiveFile>, last: Option<LastFile>)
    requires LastFileIsOwn(last)
    ensures WorldInv(Boot(active, last))
  {
    InitHolds(active, last);
    hide Inv;
  }

  lemma ArisesIsInv(w: World)
    requires Arises(w)
    ensures WorldInv(w)
  {
    hide WorldInv, Trail, Boot;
    var active, last, ms :| LastFileIsOwn(last) && Trail(Boot(active, last), ms, w);
    BootHolds(active, last);
    TrailKeepsWorld(Boot(active, last), ms, w);
  }

  // ---- What follows -------------------------------------------------------------------------

  // Without a fault sessions never overlap.
  lemma NoFaultsNoOverlap(w: World)
    requires Arises(w) && w.faults == {}
    ensures !w.overlapped
  {
    hide Inv, Apart, CallsOwned, FaultsKept, UnwrittenPast, Arises;
    ArisesIsInv(w);
  }

  lemma ArisesKnows(w: World)
    requires Arises(w)
    ensures FaultsKept(w) && WordsKept(w.d)
    ensures !w.overlapped ==> Apart(w) && Knows(w)
  {
    hide Inv, Apart, CallsOwned, FaultsKept, UnwrittenPast, Arises, Knows, WordsKept, SlotOwned, GuardsCounted;
    ArisesIsInv(w);
    InvParts(w.d);
    if !w.overlapped {
      ApartKnows(w);
    }
  }

  // Without a fault the client asks the daemon to start only when every session has ended.
  lemma StartsOnlyAfterAllEnded(w: World)
    requires Arises(w) && Possible(w, SendStart) && w.faults == {}
    ensures NoneOpen(w.d) && forall s :: SaidAll(Project(w.d.log, s))
  {
    hide Arises, Apart, Open, HoldsSlot, InStart;
    NoFaultsNoOverlap(w);
    ArisesKnows(w);
    forall s
      ensures SaidAll(Project(w.d.log, s))
    {
      if s in w.d.pcs {
        ClosedSaidAll(w.d.pcs[s]);
      }
    }
  }

  // Without a fault, a free slot seen before and no file now mean that every session has ended, although the
  // daemon moved between the two readings.
  lemma NoFileMeansNoneOpen(w: World)
    requires Arises(w) && w.faults == {} && w.phase.SawIdle? && !Readable(w.d.active)
    ensures NoneOpen(w.d)
  {
    hide Arises, WorldInv, Open, Readable;
    NoFaultsNoOverlap(w);
    ArisesKnows(w);
    ArisesIsInv(w);
    forall s | s in w.d.pcs && Open(w.d.pcs[s])
      ensures false
    {
      NoFileMeansExcused(w, s);
    }
  }

  // The check of the file lets the client pass beside an open session, other than one it abandoned, exactly
  // when the read fails or the daemon did not write that session's file.
  lemma CheckPassesBeside(w: World, ok: bool, s: SessionId)
    requires Arises(w) && !w.overlapped && w.clean && Possible(w, CheckFile(ok))
    requires s in w.d.pcs && Open(w.d.pcs[s]) && s !in w.strayed
    ensures Make(w, CheckFile(ok)).phase.NotDraining? <==> !ok || s in w.unwritten
  {
    hide Arises, Inv, Sequential, Knows, CallsOwned, FaultsKept, UnwrittenPast;
    ArisesIsInv(w);
    if !Readable(w.d.active) {
      NoFileMeansExcused(w, s);
    } else {
      HolderIsTheOpenOne(w.d, w.unwritten, s);
    }
  }

  lemma HolderIsTheOpenOne(d: State, unwritten: set<SessionId>, s: SessionId)
    requires OneOpen(d) && NoStaleFile(d, unwritten) && d.active.Some? && s in d.pcs && Open(d.pcs[s])
    ensures d.active.value.sessionId == s && s !in unwritten
  {
  }

  // The exact condition of overlap, at the first call that is served while a session is open: that call was
  // abandoned, or the client's check of the file failed, or the open session's file was not written, or
  // the open session was itself started by an abandoned call.
  lemma AdmittedBesideExactly(w: World, e: Event, mine: bool)
    requires Arises(w) && !w.overlapped && Possible(w, Daemon(e, mine)) && Reserves(w.d, e)
    ensures Make(w, Daemon(e, mine)).overlapped
       <==> exists s :: s in w.d.pcs && Open(w.d.pcs[s])
                        && (!mine || w.misread || s in w.unwritten || s in w.strayed)
    ensures forall s | s in w.d.pcs && Open(w.d.pcs[s]) ::
              !mine || w.misread || s in w.unwritten || s in w.strayed
  {
    hide Arises, Apart, Open, HoldsSlot, InStart, Do, OwnAfter, LeavesFile, SkipsSave, SkipsActive;
    hide FaultsKept, WordsKept;
    ArisesKnows(w);
  }

  // Until two sessions have overlapped, whenever one reserves the slot every other that began has said its
  // terminal state.
  lemma SessionsNeverOverlap(w: World, i: nat, k: nat) returns (j: nat)
    requires Arises(w) && !w.overlapped && i < k < |w.d.log|
    requires w.d.log[i].letter == Letter.Starting && w.d.log[k].letter == Reserve
    requires w.d.log[i].session != w.d.log[k].session
    ensures j < k && w.d.log[j].session == w.d.log[i].session
    ensures w.d.log[j].letter == Idle || w.d.log[j].letter == Failed
  {
    hide Arises, OneOpen, FilesKept, NoStaleFile, Knows, FaultsKept, WordsKept;
    ArisesKnows(w);
    var s := w.d.log[i].session;
    var before := w.d.log[..k];
    ProjectHas(before, i);
    assert SaidAll(Project(before, s));
    hide Sequential;
    j := LastLetterSaid(before, s);
  }

  // A session that said "starting" and has said all it will ended with its terminal state.
  lemma LastLetterSaid(log: seq<Entry>, s: SessionId) returns (j: nat)
    requires Letter.Starting in Project(log, s) && SaidAll(Project(log, s))
    ensures j < |log| && log[j].session == s && (log[j].letter == Idle || log[j].letter == Failed)
  {
    var word := Project(log, s);
    hide Project;
    assert word != [] && word != [Reserve, Release];
    j := ProjectFinds(log, s, word[|word| - 1]);
  }

  lemma MidRecordingHasFile(pc: Pc)
    requires Recording in Word(pc) && Idle !in Word(pc) && Failed !in Word(pc)
    ensures HasFile(pc)
  {
    if pc.Finished? {
      FinishedSaysTerminal(pc.how);
    }
  }

  lemma MidRecordingIsKnown(d: State, s: SessionId)
    requires WordsKept(d)
    requires var word := Project(d.log, s); Recording in word && Idle !in word && Failed !in word
    ensures s in d.pcs && HasFile(d.pcs[s])
  {
    hide Project, Word, HasFile;
    MidRecordingHasFile(d.pcs[s]);
  }

  // From before its "recording" until after its terminal state, the active-session file names the
  // session, if it was written, and there is only one such session.
  lemma FileNamesTheSession(w: World, s: SessionId)
    requires Arises(w) && !w.overlapped && s !in w.unwritten
    requires var word := Project(w.d.log, s); Recording in word && Idle !in word && Failed !in word
    ensures FileNames(w.d, s)
    ensures forall t | t in w.d.pcs && Open(w.d.pcs[t]) :: t == s
  {
    hide Arises, NoStaleFile, Knows, Sequential, FaultsKept, WordsKept, Project;
    ArisesKnows(w);
    MidRecordingIsKnown(w.d, s);
  }
}
