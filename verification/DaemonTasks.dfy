/**
 `start_recording`, `stop_recording`, `run_lifecycle` and `shutdown` as the daemon
 runs them: methods that mutate the session manager, the state files and the
 signal log in place, and are interrupted at every `await` by any number of steps
 of any other task (`Others`).

 Each method is proved to take steps of the protocol machine and no others, so
 every result about reachable states holds of what these methods do.
 */
module DaemonTasks {
  import opened Wrappers
  import opened RpcErrors
  import opened SessionManagers
  import opened Protocol
  import opened ProtocolProofs
  import SignalOrder
  import StopsAndShutdown

  /** What the suspended task owns, and so what no other task can use up. */
  datatype Mine = Mine(task: Option<SessionId>, fire: Option<Fire>, queued: bool)

  /** `e` is not a step of the task that owns `mine`. */
  predicate ByAnother(d: State, e: Event, mine: Mine) {
    match e
    case Refuse => !mine.queued || d.waiting > 1
    case Admit(_, _, _) => !mine.queued || d.waiting > 1
    case Advance(id, _) => mine.task != Some(id)
    case FireHook(fire) => mine.fire != Some(fire) || d.fires[fire] > 1
    case _ => true
  }

  ghost predicate Undisturbed(d: State, d': State, mine: Mine) {
    && (mine.task.Some? && mine.task.value in d.pcs && mine.task.value in d.infos ==>
          var id := mine.task.value;
          id in d'.pcs && d'.pcs[id] == d.pcs[id] && id in d'.infos && d'.infos[id] == d.infos[id])
    && (mine.fire.Some? && mine.fire.value in d.fires ==> mine.fire.value in d'.fires)
    && (mine.queued && d.waiting > 0 ==> d'.waiting > 0)
  }

  lemma AdvanceByAnother(d: State, id: SessionId, act: Action, next: Pc, mine: Mine)
    requires id in d.infos && mine.task != Some(id)
    ensures Undisturbed(d, After(d, id, act, next), mine)
  {
    PerformMovesSlot(d, id, act, next);
    AdvanceKeepsFires(d, id, act, next);
    hide After, Perform;
  }

  lemma AdvanceKeepsFires(d: State, id: SessionId, act: Action, next: Pc)
    requires id in d.infos
    ensures After(d, id, act, next).fires == d.fires && After(d, id, act, next).waiting == d.waiting
  {
  }

  ghost predicate SameForTasks(d: State, d': State) {
    d'.pcs == d.pcs && d'.infos == d.infos && d'.fires == d.fires && d'.waiting == d.waiting
  }

  lemma SameIsUndisturbed(d: State, d': State, mine: Mine)
    requires SameForTasks(d, d')
    ensures Undisturbed(d, d', mine)
  {
  }

  lemma ReserveByAnother(d: State, id: SessionId, profile: string, auto: bool, mine: Mine)
    requires d.waiting > (if mine.queued then 1 else 0) && id !in d.pcs
    ensures Undisturbed(d, CallReserves(d, id, profile, auto), mine)
  {
    hide OutputPath;
  }

  lemma CallsByAnother(d: State, mine: Mine)
    ensures Undisturbed(d, CallQueues(d), mine)
    ensures d.waiting > (if mine.queued then 1 else 0) ==> Undisturbed(d, CallFails(d), mine)
  {
  }

  lemma StopsByAnother(d: State, asked: SessionId, fire: Fire, mine: Mine)
    ensures Undisturbed(d, StopArrives(d, asked), mine)
    ensures mine.fire != Some(fire) || d.fires[fire] > 1 ==> Undisturbed(d, HookFires(d, fire), mine)
  {
  }

  // What a suspended task relies on, every step of every other task guarantees.
  lemma StepByAnother(d: State, e: Event, mine: Mine)
    requires Enabled(d, e) && ByAnother(d, e, mine)
    ensures Undisturbed(d, Do(d, e), mine)
  {
    hide Instr, After, Undisturbed, CallReserves, CallFails, CallQueues, StopArrives, HookFires, HasRecorder;
    match e
    case Call => CallsByAnother(d, mine);
    case Refuse => CallsByAnother(d, mine);
    case Admit(id, profile, auto) =>
      CallsByAnother(d, mine);
      ReserveByAnother(d, id, profile, auto, mine);
    case Advance(id, c) =>
      var (act, next) := Instr(d.pcs[id], d.infos[id].auto, c);
      AdvanceByAnother(d, id, act, next, mine);
    case StopCall(asked) => StopsByAnother(d, asked, Fire("", ""), mine);
    case FireHook(fire) => StopsByAnother(d, "", fire, mine);
    case RecorderStops(id) => SameIsUndisturbed(d, RecorderEnds(d, id), mine);
    case ShutdownTakes => SameIsUndisturbed(d, TasksTaken(DrainRequested(d)), mine);
  }

  // `SessionId::new()` can always draw an id no session has used.
  lemma {:induction false} FreshId(used: set<SessionId>) returns (id: SessionId)
    ensures id != "" && id !in used && forall k | k in used :: |k| < |id|
  {
    if used == {} {
      id := "0";
    } else {
      var k :| k in used;
      var id' := FreshId(used - {k});
      id := if |k| < |id'| then id' else k + "0";
    }
  }

  /** `Abandoned` is a call that reserved a session and returned an error; a bus fault leaves it leaked. */
  datatype StartError = Typed(error: RpcError) | Abandoned(id: SessionId)

  lemma UndisturbedTwice(a: State, b: State, c: State, mine: Mine)
    requires Undisturbed(a, b, mine) && Undisturbed(b, c, mine)
    ensures Undisturbed(a, c, mine)
  {
  }

  /** `d'` is `d` after one step of the protocol machine. */
  ghost predicate Took(d: State, e: Event, d': State) {
    Enabled(d, e) && d' == Do(d, e)
  }

  // The step a task takes, as the fields it changes.
  lemma StepChanges(d: State, id: SessionId, c: Choice, act: Action, next: Pc)
    requires Reachable(d) && id in d.pcs && id in d.infos && id in d.reasons && !Halted(d.pcs[id])
    requires d.pcs[id] == Listening && c == Proceed ==> d.reasons[id] != Running
    requires Instr(d.pcs[id], d.infos[id].auto, c) == (act, next)
    ensures Took(d, Advance(id, c), After(d, id, act, next)) && Reachable(After(d, id, act, next))
  {
    ReachStep(d, Advance(id, c));
    hide Reachable, Instr, After, Halted;
  }

  predicate NoEffect(act: Action) {
    || act.Pause? || act == SaveActive(false) || act == SaveAudio(false)
    || act == SaveTranscript(false) || act == ClearActive(false)
  }

  /** At `pc` the task writes `file` over last-session.json, and is then suspended at `next`. */
  ghost predicate SavesLast(id: SessionId, pc: Pc, info: Info, file: LastFile, next: Pc) {
    || (pc == StoppingSent && next == LastWritten(true) && file == AudioOnlyFile(id, info.output))
    || (pc == DrainedErr && next == LastWritten(false) && file == AudioOnlyFile(id, info.output))
    || (pc == TranscriptReady && next == TranscriptSaved && file == WithTranscriptFile(id, info.output))
  }

  lemma NoEffectAfter(d: State, id: SessionId, act: Action, next: Pc)
    requires NoEffect(act) && id in d.infos
    ensures After(d, id, act, next) == d.(pcs := d.pcs[id := next])
  {
  }

  // A step that only moves the task on.
  lemma QuietStep(d: State, id: SessionId, c: Choice, next: Pc)
    requires Reachable(d) && id in d.pcs && id in d.infos && id in d.reasons && !Halted(d.pcs[id])
    requires d.pcs[id] == Listening && c == Proceed ==> d.reasons[id] != Running
    requires NoEffect(Instr(d.pcs[id], d.infos[id].auto, c).0) && Instr(d.pcs[id], d.infos[id].auto, c).1 == next
    ensures var d' := d.(pcs := d.pcs[id := next]); Took(d, Advance(id, c), d') && Reachable(d')
  {
    hide Reachable, Took, Instr, NoEffect, Halted, After;
    var act := Instr(d.pcs[id], d.infos[id].auto, c).0;
    StepChanges(d, id, c, act, next);
    NoEffectAfter(d, id, act, next);
  }

  // A step that writes the last-session file.
  lemma SavingStep(d: State, id: SessionId, file: LastFile, next: Pc)
    requires Reachable(d) && id in d.pcs && id in d.infos && id in d.reasons
    requires SavesLast(id, d.pcs[id], d.infos[id], file, next)
    ensures var d' := d.(pcs := d.pcs[id := next], last := Some(file));
            Took(d, Advance(id, Proceed), d') && Reachable(d')
  {
    hide Reachable, Took;
    StepChanges(d, id, Proceed, Instr(d.pcs[id], d.infos[id].auto, Proceed).0, next);
  }

  // The step that removes the active-session file.
  lemma ClearingStep(d: State, id: SessionId, how: Ending)
    requires Reachable(d) && id in d.pcs && id in d.infos && id in d.reasons && d.pcs[id] == Closed(how)
    ensures var d' := d.(pcs := d.pcs[id := Finished(how)], active := None);
            Took(d, Advance(id, Proceed), d') && Reachable(d')
  {
    hide Reachable, Took;
    StepChanges(d, id, Proceed, ClearActive(true), Finished(how));
  }

  // What a stop call does at once, by what is decided under the lock.
  lemma StopSteps(d: State, id: SessionId)
    requires Reachable(d)
    ensures var decision := d.mgr.StopDecision(id);
            if decision == Stopped then
              d.mgr.ActiveHook() == Some(id) && Reachable(d.(fires := d.fires + multiset{Fire(id, id)}))
            else
              Reachable(d.(replies := d.replies + {Reply(id, decision)}))
  {
    hide Reachable;
    StopAims(d, id);
    ReachStep(d, StopCall(id));
  }

  /**
     What the fallible calls of one lifecycle come to: draining the recorder, the job,
     the two writes of the last-session file, the removal of the active-session file.
   */
  datatype Outcomes = Outcomes(
    recorded: Choice, transcribed: bool, audioSaved: bool, transcriptSaved: bool, removed: bool)

  /**
     The same of one start: GStreamer and the output directory, the recorder, the write
     of the active-session file, the interface lookup.
   */
  datatype Starts = Starts(ready: bool, up: bool, written: bool, found: bool)

  /** What one task has written and how often it has slept, which the state no longer shows. */
  class Journal {
    ghost var saves: seq<LastFile>
    ghost var actives: seq<ActiveFile>
    ghost var naps: nat

    constructor ()
      ensures saves == [] && actives == [] && naps == 0
    {
      saves, actives, naps := [], [], 0;
    }
  }

  class Daemon {
    const manager: SessionManager
    var waiting: nat
    var startLock: Option<SessionId>
    var pcs: map<SessionId, Pc>
    var infos: map<SessionId, Info>
    var reasons: map<SessionId, StopReason>
    var fires: multiset<Fire>
    var replies: set<Reply>
    var drainAsked: set<SessionId>
    var taken: set<SessionId>
    var active: Option<ActiveFile>
    var last: Option<LastFile>
    var log: seq<Entry>

    function View(): State
      reads this, manager
    {
      State(Manager(manager.inner, manager.lifecycleTasks, manager.inflightStarts),
            waiting, startLock, pcs, infos, reasons, fires, replies, drainAsked, taken, active, last, log)
    }

    /** The daemon is in a state the protocol can reach. */
    ghost predicate Valid()
      reads this, manager
    {
      Reachable(View())
    }

    constructor (active: Option<ActiveFile>, last: Option<LastFile>)
      requires LastFileIsOwn(last)
      ensures fresh(manager) && View() == Init(active, last) && Valid()
    {
      manager := new SessionManager();
      waiting, startLock := 0, None;
      pcs, infos, reasons := map[], map[], map[];
      fires, replies, drainAsked, taken := multiset{}, {}, {}, {};
      this.active, this.last, log := active, last, [];
      new;
      assert Path(Init(active, last), [], View());
      assert Leads(Init(active, last), View());
    }

    // ---- Suspension ---------------------------------------------------------------

    lemma Viewed(d: State)
      requires manager.inner == d.mgr.slot && manager.lifecycleTasks == d.mgr.tasks
      requires manager.inflightStarts == d.mgr.inflight && waiting == d.waiting && startLock == d.startLock
      requires pcs == d.pcs && infos == d.infos && reasons == d.reasons && fires == d.fires && replies == d.replies
      requires drainAsked == d.drainAsked && taken == d.taken && active == d.active && last == d.last && log == d.log
      ensures View() == d
    {
    }

    method BecomeManager(m: Manager)
      modifies manager
      ensures manager.inner == m.slot && manager.lifecycleTasks == m.tasks && manager.inflightStarts == m.inflight
    {
      hide *;
      manager.inner, manager.lifecycleTasks, manager.inflightStarts := m.slot, m.tasks, m.inflight;
    }

    method BecomeTasks(d: State)
      modifies `waiting, `startLock, `pcs, `infos, `reasons
      ensures waiting == d.waiting && startLock == d.startLock
      ensures pcs == d.pcs && infos == d.infos && reasons == d.reasons
    {
      hide *;
      waiting, startLock, pcs, infos, reasons := d.waiting, d.startLock, d.pcs, d.infos, d.reasons;
    }

    method BecomeRecords(d: State)
      modifies `fires, `replies, `drainAsked, `taken, `active, `last, `log
      ensures fires == d.fires && replies == d.replies && drainAsked == d.drainAsked && taken == d.taken
      ensures active == d.active && last == d.last && log == d.log
    {
      hide *;
      fires, replies, drainAsked, taken := d.fires, d.replies, d.drainAsked, d.taken;
      active, last, log := d.active, d.last, d.log;
    }

    method Become(d: State)
      modifies this, manager
      ensures View() == d
    {
      hide *;
      BecomeManager(d.mgr);
      BecomeTasks(d);
      BecomeRecords(d);
      Viewed(d);
    }

    /** An `await`: the other tasks take any finite number of steps. */
    method Others(mine: Mine)
      requires Valid()
      modifies this, manager
      ensures Valid() && Undisturbed(old(View()), View(), mine)
    {
      var steps: nat := *;
      while steps > 0
        invariant Valid() && Undisturbed(old(View()), View(), mine)
      {
        var e: Event := *;
        var d := View();
        if Enabled(d, e) && ByAnother(d, e, mine) {
          StepByAnother(d, e, mine);
          ReachStep(d, e);
          UndisturbedTwice(old(View()), d, Do(d, e), mine);
          Become(Do(d, e));
        }
        steps := steps - 1;
      }
    }

    /** The task of `id` is at `pc`. */
    ghost predicate At(id: SessionId, pc: Pc)
      reads this, manager
    {
      Valid() && id in pcs && id in infos && id in reasons && pcs[id] == pc
    }

    /** Suspension of the task of `id`, between two of its own steps. */
    method Await(id: SessionId, ghost pc: Pc)
      requires At(id, pc)
      modifies this, manager
      ensures At(id, pc) && infos[id] == old(infos)[id]
    {
      Others(Mine(Some(id), None, false));
      ReachableIsInv(View());
      hide Reachable, Inv;
    }

    // ---- One step of a session's own task ----------------------------------------

    /** A step with no effect but where the task is suspended, failed writes included. */
    method Goto(id: SessionId, ghost pc: Pc, c: Choice, next: Pc)
      requires At(id, pc) && !Halted(pc) && (pc == Listening && c == Proceed ==> reasons[id] != Running)
      requires NoEffect(Instr(pc, infos[id].auto, c).0) && Instr(pc, infos[id].auto, c).1 == next
      modifies this, manager
      ensures At(id, next) && Took(old(View()), Advance(id, c), View())
      ensures infos[id] == old(infos)[id] && active == old(active) && last == old(last)
    {
      hide Reachable, Took, Instr, NoEffect, Halted;
      QuietStep(View(), id, c, next);
      pcs := pcs[id := next];
    }

    method Say(id: SessionId, ghost pc: Pc, letter: Letter, path: string, next: Pc)
      requires At(id, pc) && !Halted(pc) && pc != Listening
      requires Instr(pc, infos[id].auto, Proceed) == (Protocol.Say(letter), next)
      requires path == if letter == RecordingComplete then infos[id].output else ""
      modifies this, manager
      ensures At(id, next) && Took(old(View()), Advance(id, Proceed), View())
      ensures infos[id] == old(infos)[id]
    {
      hide Reachable, Took, Instr, OutputPath;
      StepChanges(View(), id, Proceed, Protocol.Say(letter), next);
      log := log + [Entry(id, letter, path)];
      pcs := pcs[id := next];
    }

    method ReleaseSlot(id: SessionId, ghost pc: Pc, c: Choice, next: Pc)
      requires At(id, pc) && !Halted(pc) && pc != Listening
      requires Instr(pc, infos[id].auto, c) == (FreeSlot, next)
      modifies this, manager
      ensures At(id, next) && Took(old(View()), Advance(id, c), View())
      ensures infos[id] == old(infos)[id]
    {
      hide Reachable, Took, Instr, OutputPath;
      StepChanges(View(), id, c, FreeSlot, next);
      manager.Release();
      log := log + [Entry(id, Release, "")];
      pcs := pcs[id := next];
    }

    method WriteLast(id: SessionId, ghost pc: Pc, file: LastFile, next: Pc, ghost journal: Journal)
      requires At(id, pc) && SavesLast(id, pc, infos[id], file, next)
      modifies this, manager, journal`saves
      ensures At(id, next) && Took(old(View()), Advance(id, Proceed), View())
      ensures infos[id] == old(infos)[id] && last == Some(file)
      ensures journal.saves == old(journal.saves) + [file]
    {
      hide Reachable, Took, SavesLast;
      SavingStep(View(), id, file, next);
      last := Some(file);
      pcs := pcs[id := next];
      journal.saves := journal.saves + [file];
    }

    /** `persist_last_session`, before or after transcription. A failed write is only logged. */
    method PersistLast(id: SessionId, ghost pc: Pc, file: LastFile, next: Pc, written: bool, ghost journal: Journal)
      requires At(id, pc) && SavesLast(id, pc, infos[id], file, next)
      modifies this, manager, journal`saves
      ensures At(id, next) && infos[id] == old(infos)[id]
      ensures Took(old(View()), Advance(id, if written then Proceed else Fail), View())
      ensures last == if written then Some(file) else old(last)
      ensures journal.saves == old(journal.saves) + if written then [file] else []
    {
      hide Took, Reachable, OutputPath, View, Valid;
      if written {
        WriteLast(id, pc, file, next, journal);
      } else {
        Goto(id, pc, Fail, next);
      }
    }

    method RemoveActiveFile(id: SessionId, how: Ending)
      requires At(id, Closed(how))
      modifies this, manager
      ensures At(id, Finished(how)) && Took(old(View()), Advance(id, Proceed), View())
      ensures active == None
    {
      hide Reachable, Took;
      ClearingStep(View(), id, how);
      active := None;
      pcs := pcs[id := Finished(how)];
    }

    /** `active_session::clear`: a failed removal is only logged. */
    method ClearActiveFile(id: SessionId, how: Ending, removed: bool)
      requires At(id, Closed(how))
      modifies this, manager
      ensures At(id, Finished(how)) && active == if removed then None else old(active)
      ensures Took(old(View()), Advance(id, if removed then Proceed else Fail), View())
    {
      hide Took, Reachable, OutputPath, View, Valid;
      if removed {
        RemoveActiveFile(id, how);
      } else {
        Goto(id, Closed(how), Fail, Finished(how));
      }
    }

    /** `before` is the state in which the file is removed, after the terminal signal; whoever's it is, it goes. */
    method EmitTerminalState(id: SessionId, how: Ending, removed: bool) returns (ghost before: State)
      requires At(id, Closing(how))
      modifies this, manager
      ensures At(id, Finished(how)) && active == if removed then None else before.active
      ensures Took(before, Advance(id, if removed then Proceed else Fail), View())
      ensures id in before.pcs && before.pcs[id] == Closed(how) && Reachable(before)
    {
      hide Took, Reachable, OutputPath;
      Say(id, Closing(how), Terminal(how), "", Closed(how));
      Await(id, Closed(how));
      before := View();
      ClearActiveFile(id, how, removed);
    }

    // ---- run_lifecycle --------------------------------------------------------------

    /**
     The whole lifecycle task. `wakes` bounds how often the stop channel wakes the
     task without a reason before its sender is dropped. `before` is the state in which
     the active-session file is removed.
     */
    method RunLifecycle(id: SessionId, wakes: nat, o: Outcomes, ghost journal: Journal)
      returns (how: Ending, ghost before: State)
      requires At(id, Listening)
      modifies this, manager, journal`saves
      ensures At(id, Finished(how)) && SignalOrder.Signals(Project(log, id)) == SignalOrder.Ended(how)
      // what has been said
      ensures RecordingComplete in Project(log, id) <==> !o.recorded.Panic?
      ensures Stopping in Project(log, id) <==> o.recorded.Proceed?
      ensures TranscriptComplete in Project(log, id) <==>
                o.recorded.Proceed? && old(infos)[id].auto && o.transcribed
      ensures Idle in Project(log, id) <==> o.recorded.Proceed? && (!old(infos)[id].auto || o.transcribed)
      ensures Failed in Project(log, id) <==> Idle !in Project(log, id)
      // what has been written: the recording unless the drain panicked, then the transcript if there is one
      ensures journal.saves == old(journal.saves)
                + (if !o.recorded.Panic? && o.audioSaved then
                     [LastFile(1, id, old(infos)[id].output, "", "")]
                   else [])
                + (if o.recorded.Proceed? && old(infos)[id].auto && o.transcribed && o.transcriptSaved then
                     [LastFile(1, id, old(infos)[id].output, TranscriptPath(id), "backend")]
                   else [])
      // and removed
      ensures Reachable(before) && active == if o.removed then None else before.active
    {
      hide Took, Reachable, OutputPath, View, Valid, At, Project, TranscriptPath;
      hide SignalOrder.Signals, SignalOrder.Ended;
      AwaitStop(id, wakes);
      how := Drain(id, o, journal);
      before := Conclude(id, how, o.removed);
    }

    /** The stop channel's reason, or its closing without one; then the recorder is being drained. */
    method AwaitStop(id: SessionId, wakes: nat)
      requires At(id, Listening)
      modifies this, manager
      ensures At(id, Draining) && infos[id] == old(infos)[id]
    {
      hide Took, Reachable, OutputPath, View, Valid;
      var left := wakes;
      while reasons[id] == Running && left > 0
        invariant At(id, Listening) && infos[id] == old(infos)[id]
      {
        Await(id, Listening);
        left := left - 1;
      }
      Goto(id, Listening, if reasons[id] == Running then Fail else Proceed, Draining);
      Await(id, Draining);
    }

    /** The terminal state, after which all has been said. */
    method Conclude(id: SessionId, how: Ending, removed: bool) returns (ghost before: State)
      requires At(id, Closing(how))
      modifies this, manager
      ensures At(id, Finished(how)) && SignalOrder.Signals(Project(log, id)) == SignalOrder.Ended(how)
      ensures RecordingComplete in Project(log, id) <==> !how.DrainPanic?
      ensures Stopping in Project(log, id) <==> !how.DrainPanic? && !how.RecorderError?
      ensures TranscriptComplete in Project(log, id) <==> how.WithTranscript?
      ensures Idle in Project(log, id) <==> how.WithTranscript? || how.AudioOnly?
      ensures Failed in Project(log, id) <==> !how.WithTranscript? && !how.AudioOnly?
      ensures Reachable(before) && active == if removed then None else before.active
    {
      hide Took, Reachable, OutputPath, View, Valid, At, Project, SignalOrder.Signals, SignalOrder.Ended;
      Await(id, Closing(how));
      before := EmitTerminalState(id, how, removed);
      SpokenInFull(id, how);
    }

    lemma SpokenInFull(id: SessionId, how: Ending)
      requires At(id, Finished(how))
      ensures SignalOrder.Signals(Project(log, id)) == SignalOrder.Ended(how)
      ensures RecordingComplete in Project(log, id) <==> !how.DrainPanic?
      ensures Stopping in Project(log, id) <==> !how.DrainPanic? && !how.RecorderError?
      ensures TranscriptComplete in Project(log, id) <==> how.WithTranscript?
      ensures Idle in Project(log, id) <==> how.WithTranscript? || how.AudioOnly?
      ensures Failed in Project(log, id) <==> !how.WithTranscript? && !how.AudioOnly?
    {
      FinishedHasSpoken(View(), id, how);
    }

    /** `await_completion` on the blocking pool, and everything up to the terminal state. */
    method Drain(id: SessionId, o: Outcomes, ghost journal: Journal) returns (how: Ending)
      requires At(id, Draining)
      modifies this, manager, journal`saves
      ensures At(id, Closing(how))
      ensures how == match o.recorded
                     case Panic => DrainPanic
                     case Fail => RecorderError
                     case Proceed =>
                       if !old(infos)[id].auto then AudioOnly else if o.transcribed then WithTranscript else JobFailed
      ensures journal.saves == old(journal.saves)
                + (if !o.recorded.Panic? && o.audioSaved then
                     [LastFile(1, id, old(infos)[id].output, "", "")]
                   else [])
                + (if how.WithTranscript? && o.transcriptSaved then
                     [LastFile(1, id, old(infos)[id].output, TranscriptPath(id), "backend")]
                   else [])
    {
      hide Took, Reachable, OutputPath, View, Valid;
      match o.recorded {
        case Panic =>
          how := DrainPanic;
          ReleaseSlot(id, Draining, Panic, Closing(DrainPanic));
        case Proceed =>
          Goto(id, Draining, Proceed, DrainedOk);
          how := FinishRecording(id, o, journal);
        case Fail =>
          how := RecorderError;
          FinishFailed(id, o.audioSaved, journal);
      }
    }

    /** The recorder failed: the audio there is, is still announced, with no "stopping". */
    method FinishFailed(id: SessionId, saved: bool, ghost journal: Journal)
      requires At(id, Draining)
      modifies this, manager, journal`saves
      ensures At(id, Closing(RecorderError))
      ensures journal.saves == old(journal.saves)
                + if saved then [LastFile(1, id, old(infos)[id].output, "", "")] else []
    {
      hide Took, Reachable, OutputPath, View, Valid;
      DrainFailed(id);
      hide At;
      CompleteRecording(id, DrainedErr, false, saved, journal);
      CloseFailed(id);
    }

    method DrainFailed(id: SessionId)
      requires At(id, Draining)
      modifies this, manager
      ensures At(id, DrainedErr) && infos[id] == old(infos)[id]
    {
      hide Took, Reachable, OutputPath, View, Valid;
      Goto(id, Draining, Fail, DrainedErr);
      Await(id, DrainedErr);
    }

    method CloseFailed(id: SessionId)
      requires At(id, Released(false))
      modifies this, manager
      ensures At(id, Closing(RecorderError))
    {
      hide Took, Reachable, OutputPath, View, Valid, At;
      Await(id, Released(false));
      Goto(id, Released(false), Proceed, Closing(RecorderError));
    }

    /** Persist the audio path, announce it, free the slot. */
    method CompleteRecording(id: SessionId, ghost pc: Pc, ok: bool, saved: bool, ghost journal: Journal)
      requires At(id, pc) && pc == if ok then StoppingSent else DrainedErr
      modifies this, manager, journal`saves
      ensures At(id, Released(ok)) && infos[id] == old(infos)[id]
      ensures journal.saves == old(journal.saves) + if saved then [LastFile(1, id, infos[id].output, "", "")] else []
    {
      hide Took, Reachable, OutputPath, View, Valid;
      AnnounceComplete(id, pc, ok, saved, journal);
      Await(id, CompleteSent(ok));
      ReleaseSlot(id, CompleteSent(ok), Proceed, Released(ok));
    }

    method AnnounceComplete(id: SessionId, ghost pc: Pc, ok: bool, saved: bool, ghost journal: Journal)
      requires At(id, pc) && pc == if ok then StoppingSent else DrainedErr
      modifies this, manager, journal`saves
      ensures At(id, CompleteSent(ok)) && infos[id] == old(infos)[id]
      ensures journal.saves == old(journal.saves) + if saved then [LastFile(1, id, infos[id].output, "", "")] else []
    {
      hide Took, Reachable, OutputPath, View, Valid;
      PersistLast(id, pc, AudioOnlyFile(id, infos[id].output), LastWritten(ok), saved, journal);
      Await(id, LastWritten(ok));
      Say(id, LastWritten(ok), RecordingComplete, infos[id].output, CompleteSent(ok));
    }

    /** The recorder drained cleanly: complete the recording, then transcribe if asked to. */
    method FinishRecording(id: SessionId, o: Outcomes, ghost journal: Journal) returns (how: Ending)
      requires At(id, DrainedOk)
      modifies this, manager, journal`saves
      ensures At(id, Closing(how))
      ensures how == if !old(infos)[id].auto then AudioOnly else if o.transcribed then WithTranscript else JobFailed
      ensures journal.saves == old(journal.saves)
                + (if o.audioSaved then [LastFile(1, id, old(infos)[id].output, "", "")] else [])
                + (if how.WithTranscript? && o.transcriptSaved then
                     [LastFile(1, id, old(infos)[id].output, TranscriptPath(id), "backend")]
                   else [])
    {
      hide Took, Reachable, OutputPath, View, Valid;
      Say(id, DrainedOk, Stopping, "", StoppingSent);
      Await(id, StoppingSent);
      CompleteRecording(id, StoppingSent, true, o.audioSaved, journal);
      hide At, TranscriptPath;
      how := TranscribeIfAsked(id, o, journal);
    }

    /** The slot is free; the job is submitted if the profile asks for it. */
    method TranscribeIfAsked(id: SessionId, o: Outcomes, ghost journal: Journal) returns (how: Ending)
      requires At(id, Released(true))
      modifies this, manager, journal`saves
      ensures At(id, Closing(how))
      ensures how == if !old(infos)[id].auto then AudioOnly else if o.transcribed then WithTranscript else JobFailed
      ensures journal.saves == old(journal.saves)
                + (if how.WithTranscript? && o.transcriptSaved then
                     [LastFile(1, id, old(infos)[id].output, TranscriptPath(id), "backend")]
                   else [])
    {
      hide Took, Reachable, OutputPath, View, Valid, TranscriptPath;
      Await(id, Released(true));
      if !infos[id].auto {
        Goto(id, Released(true), Proceed, Closing(AudioOnly));
        return AudioOnly;
      }
      Goto(id, Released(true), Proceed, JobSubmitted);
      how := AwaitTranscript(id, o.transcribed, o.transcriptSaved, journal);
    }

    method AwaitTranscript(id: SessionId, transcribed: bool, saved: bool, ghost journal: Journal) returns (how: Ending)
      requires At(id, JobSubmitted)
      modifies this, manager, journal`saves
      ensures At(id, Closing(how)) && how == if transcribed then WithTranscript else JobFailed
      ensures journal.saves == old(journal.saves)
                + if transcribed && saved then
                    [LastFile(1, id, old(infos)[id].output, TranscriptPath(id), "backend")]
                  else []
    {
      hide Took, Reachable, OutputPath, View, Valid;
      Await(id, JobSubmitted);
      if !transcribed {
        Goto(id, JobSubmitted, Fail, Closing(JobFailed));
        return JobFailed;
      }
      Goto(id, JobSubmitted, Proceed, TranscriptReady);
      hide At, TranscriptPath;
      AnnounceTranscript(id, saved, journal);
      how := WithTranscript;
    }

    /** Persist both paths, announce the transcript. */
    method AnnounceTranscript(id: SessionId, saved: bool, ghost journal: Journal)
      requires At(id, TranscriptReady)
      modifies this, manager, journal`saves
      ensures At(id, Closing(WithTranscript))
      ensures journal.saves == old(journal.saves)
                + if saved then [LastFile(1, id, old(infos)[id].output, TranscriptPath(id), "backend")] else []
    {
      hide Took, Reachable, OutputPath, View, Valid;
      Await(id, TranscriptReady);
      PersistLast(id, TranscriptReady, WithTranscriptFile(id, infos[id].output), TranscriptSaved, saved, journal);
      Await(id, TranscriptSaved);
      Say(id, TranscriptSaved, TranscriptComplete, "", Closing(WithTranscript));
    }

    // ---- start_recording -------------------------------------------------------------

    /** The call has been queued on the start lock: `begin_start`, then the lock's `await`. */
    method QueueCall()
      requires Valid()
      modifies this, manager
      ensures Valid() && Took(old(View()), Call, View()) && waiting > 0
    {
      ReachStep(View(), Call);
      manager.BeginStart();
      waiting := waiting + 1;
      hide Reachable;
    }

    /**
     The start lock is handed over once its holder has returned. The body plays one
     such schedule, in which the holder's remaining calls fail; callers know only
     that the lock is free and their own call is still queued.
     */
    method AwaitStartLock()
      requires Valid() && waiting > 0
      modifies this, manager
      ensures Valid() && waiting > 0 && startLock.None?
    {
      hide Reachable, View, Valid, Undisturbed;
      AwaitQueued();
      while startLock.Some?
        invariant Valid() && waiting > 0
        decreases if startLock.Some? && startLock.value in pcs then StartSteps(pcs[startLock.value]) + 1 else 0
      {
        RunHolder();
      }
    }

    method AwaitQueued()
      requires Valid() && waiting > 0
      modifies this, manager
      ensures Valid() && waiting > 0
    {
      Others(Mine(None, None, true));
      hide Reachable;
    }

    method RunHolder()
      requires Valid() && startLock.Some?
      modifies this, manager
      ensures Valid() && waiting == old(waiting) && old(startLock.value in pcs)
      ensures startLock.None?
           || (startLock == old(startLock) && startLock.value in pcs
               && StartSteps(pcs[startLock.value]) < old(StartSteps(pcs[startLock.value])))
    {
      ghost var d' := HolderReturns(View());
      var d := View();
      hide Reachable, TaskAdvances, HasRecorder, StartSteps;
      Become(TaskAdvances(d, d.startLock.value, Fail));
    }

    /** A queued call gets the lock and fails before, or at, the reservation. */
    method GiveUp()
      requires Valid() && waiting > 0 && startLock.None?
      modifies this, manager
      ensures Valid() && Took(old(View()), Refuse, View()) && View() == CallFails(old(View()))
    {
      hide Reachable, Took;
      RefuseChanges(View());
      waiting := waiting - 1;
      manager.DropGuard();
    }

    /** `try_reserve` for a fresh id, under the start lock. */
    method ReserveSession(profile: string, auto: bool) returns (r: Result<SessionId, RpcError>)
      requires Valid() && waiting > 0 && startLock.None? && profile != ""
      modifies this, manager
      ensures Valid()
      ensures r.Ok? ==> At(r.value, Reserved) && infos[r.value] == Info(profile, auto, OutputPath(r.value))
      ensures r.Ok? ==> r.value !in old(pcs) && old(View()).mgr.slot.None?
      ensures r.Err? ==> View() == CallFails(old(View()))
      ensures r.Err? ==>
                old(View()).mgr.slot.Some? && r.error == SessionInUse(old(View()).mgr.slot.value.sessionId)
    {
      ghost var unused := FreshId(pcs.Keys);
      var id: SessionId :| id != "" && id !in pcs;
      ghost var d := View();
      AdmitChanges(d, id, profile, auto);
      hide Reachable, OutputPath, CallReserves;
      var reserved := manager.TryReserve(id, profile);
      if reserved.Err? {
        GiveUp();
        return Err(reserved.error);
      }
      OpenSession(id, profile, auto, d);
      r := Ok(id);
    }

    /** The call that has just reserved the slot, from state `d`, now owns a session. */
    method OpenSession(id: SessionId, profile: string, auto: bool, ghost d: State)
      requires d.waiting > 0 && id !in d.pcs && Reachable(CallReserves(d, id, profile, auto))
      requires View() == d.(mgr := d.mgr.Reserve(id, profile))
      modifies this
      ensures At(id, Reserved) && infos[id] == Info(profile, auto, OutputPath(id))
    {
      hide Reachable, OutputPath;
      Enroll(id, profile, auto);
      Viewed(CallReserves(d, id, profile, auto));
      hide CallReserves, View;
    }

    method Enroll(id: SessionId, profile: string, auto: bool)
      requires waiting > 0
      modifies `waiting, `startLock, `pcs, `infos, `reasons, `log
      ensures waiting == old(waiting) - 1 && startLock == Some(id)
      ensures pcs == old(pcs)[id := Reserved] && infos == old(infos)[id := Info(profile, auto, OutputPath(id))]
      ensures reasons == old(reasons)[id := Running] && log == old(log) + [Entry(id, Reserve, "")]
    {
      hide *;
      waiting := waiting - 1;
      startLock := Some(id);
      pcs := pcs[id := Reserved];
      infos := infos[id := Info(profile, auto, OutputPath(id))];
      reasons := reasons[id := Running];
      log := log + [Entry(id, Reserve, "")];
    }

    /** The call returns: the start lock and the in-flight guard are dropped. */
    method Return(id: SessionId, ghost pc: Pc, c: Choice, next: Pc)
      requires At(id, pc) && InStart(pc) && Instr(pc, infos[id].auto, c) == (Protocol.Return, next)
      modifies this, manager
      ensures At(id, next) && Took(old(View()), Advance(id, c), View()) && infos[id] == old(infos)[id]
    {
      hide Reachable, Took, Instr, OutputPath;
      GuardIsCounted(View(), id);
      StepChanges(View(), id, c, Protocol.Return, next);
      startLock := None;
      manager.DropGuard();
      pcs := pcs[id := next];
    }

    /** GStreamer init or the output directory failed: release, return, no signal. */
    method ReleaseAndReturn(id: SessionId)
      requires At(id, Reserved)
      modifies this, manager
      ensures At(id, Silent) && Took(old(View()), Advance(id, Fail), View()) && infos[id] == old(infos)[id]
    {
      hide Reachable, Took, OutputPath;
      GuardIsCounted(View(), id);
      StepChanges(View(), id, Fail, FreeSlotAndReturn, Silent);
      manager.Release();
      log := log + [Entry(id, Release, "")];
      startLock := None;
      manager.DropGuard();
      pcs := pcs[id := Silent];
    }

    /** `spawn_lifecycle`, and the return of the call that made it. */
    method SpawnLifecycle(id: SessionId)
      requires At(id, RecordingSent)
      modifies this, manager
      ensures At(id, Listening) && Took(old(View()), Advance(id, Proceed), View())
      ensures id in manager.lifecycleTasks && infos[id] == old(infos)[id]
    {
      hide Reachable, Took, OutputPath, Unfinished, FinishedTasks;
      GuardIsCounted(View(), id);
      StepChanges(View(), id, Proceed, Spawn, Listening);
      manager.InstallStopHook(id);
      manager.RegisterLifecycle(id, FinishedTasks(pcs));
      startLock := None;
      manager.DropGuard();
      pcs := pcs[id := Listening];
    }

    method WriteActive(id: SessionId, ghost journal: Journal)
      requires At(id, RecorderUp)
      modifies this, manager, journal`actives
      ensures At(id, FileWritten) && Took(old(View()), Advance(id, Proceed), View())
      ensures infos[id] == old(infos)[id] && active == Some(ActiveFile(1, id, infos[id].profile))
      ensures journal.actives == old(journal.actives) + [ActiveFile(1, id, infos[id].profile)]
    {
      hide Reachable, Took, OutputPath;
      StepChanges(View(), id, Proceed, SaveActive(true), FileWritten);
      active := Some(ActiveFile(SCHEMA_VERSION, id, infos[id].profile));
      pcs := pcs[id := FileWritten];
      journal.actives := journal.actives + [active.value];
    }

    /** From the reservation to the spawned lifecycle, or to one of the three ways of giving up. */
    method StartReserved(id: SessionId, s: Starts, ghost journal: Journal) returns (started: bool)
      requires At(id, Reserved)
      modifies this, manager, journal`actives
      ensures started <==> s.ready && s.up && s.found
      ensures At(id, if !s.ready then Silent else if !s.up then Rejected else if !s.found then Leaked else Listening)
      ensures Valid() && id in pcs && id in infos && infos[id] == old(infos)[id] && (pcs[id].Listening? <==> started)
      ensures Project(log, id) == if !s.ready then [Reserve, Release]
                                  else if !s.up then [Reserve, Starting, Release, Failed]
                                  else [Reserve, Starting, Recording]
      ensures started ==> id in manager.lifecycleTasks
      ensures journal.actives == old(journal.actives)
                + if s.ready && s.up && s.written then [ActiveFile(1, id, old(infos)[id].profile)] else []
    {
      hide Took, Reachable, OutputPath, View, Valid, InStart, Project;
      Await(id, Reserved);
      if !s.ready {
        ReleaseAndReturn(id);
        HasSaid(id, Silent);
        return false;
      }
      Say(id, Reserved, Starting, "", StartingSent);
      started := StartRecorder(id, s, journal);
    }

    /** "starting" has been said: `Recorder::start`, and what follows. */
    method StartRecorder(id: SessionId, s: Starts, ghost journal: Journal) returns (started: bool)
      requires At(id, StartingSent)
      modifies this, manager, journal`actives
      ensures started <==> s.up && s.found
      ensures At(id, if !s.up then Rejected else if !s.found then Leaked else Listening) && infos[id] == old(infos)[id]
      ensures Project(log, id) == if !s.up then [Reserve, Starting, Release, Failed] else [Reserve, Starting, Recording]
      ensures started ==> id in manager.lifecycleTasks
      ensures journal.actives == old(journal.actives)
                + if s.up && s.written then [ActiveFile(1, id, old(infos)[id].profile)] else []
    {
      hide Took, Reachable, OutputPath, View, Valid, InStart, Project;
      Await(id, StartingSent);
      if !s.up {
        RejectStart(id);
        HasSaid(id, Rejected);
        return false;
      }
      Goto(id, StartingSent, Proceed, RecorderUp);
      started := AnnounceRecording(id, s.written, s.found, journal);
    }

    /** What the session has said so far. */
    lemma HasSaid(id: SessionId, pc: Pc)
      requires At(id, pc)
      ensures pc.Silent? ==> Project(log, id) == [Reserve, Release]
      ensures pc.Rejected? ==> Project(log, id) == [Reserve, Starting, Release, Failed]
      ensures pc.Leaked? || pc.Listening? ==> Project(log, id) == [Reserve, Starting, Recording]
    {
      SaidByWord(View(), id);
    }

    method RejectStart(id: SessionId)
      requires At(id, StartingSent)
      modifies this, manager
      ensures At(id, Rejected) && infos[id] == old(infos)[id]
    {
      hide Took, Reachable, OutputPath, View, Valid;
      ReleaseSlot(id, StartingSent, Fail, StartFailed);
      Await(id, StartFailed);
      Say(id, StartFailed, Failed, "", StartFailedSent);
      Await(id, StartFailedSent);
      Return(id, StartFailedSent, Proceed, Rejected);
    }

    /** Persist the active session, announce it, spawn its lifecycle. */
    method AnnounceRecording(id: SessionId, written: bool, found: bool, ghost journal: Journal) returns (started: bool)
      requires At(id, RecorderUp)
      modifies this, manager, journal`actives
      ensures (started <==> found) && At(id, if found then Listening else Leaked) && infos[id] == old(infos)[id]
      ensures Project(log, id) == [Reserve, Starting, Recording]
      ensures started ==> id in manager.lifecycleTasks
      ensures journal.actives == old(journal.actives)
                + if written then [ActiveFile(1, id, old(infos)[id].profile)] else []
    {
      hide Took, Reachable, OutputPath, View, Valid, Project;
      Await(id, RecorderUp);
      PersistActive(id, written, journal);
      Await(id, FileWritten);
      Say(id, FileWritten, Recording, "", RecordingSent);
      Await(id, RecordingSent);
      started := found;
      if found {
        SpawnLifecycle(id);
        HasSaid(id, Listening);
      } else {
        Return(id, RecordingSent, Fail, Leaked);
        HasSaid(id, Leaked);
      }
    }

    /** A failed write is only logged. */
    method PersistActive(id: SessionId, written: bool, ghost journal: Journal)
      requires At(id, RecorderUp)
      modifies this, manager, journal`actives
      ensures At(id, FileWritten) && infos[id] == old(infos)[id]
      ensures active == if written then Some(ActiveFile(1, id, old(infos)[id].profile)) else old(active)
      ensures journal.actives == old(journal.actives)
                + if written then [ActiveFile(1, id, old(infos)[id].profile)] else []
    {
      hide Took, Reachable, OutputPath, View, Valid;
      if written {
        WriteActive(id, journal);
      } else {
        Goto(id, RecorderUp, Fail, FileWritten);
      }
    }

    /**
     `load` is what loading and validating the profile gives: its auto flag, or a typed
     error. `at` is the state in which the call got the start lock.
     */
    method StartRecording(profile: string, load: Result<bool, RpcError>, s: Starts, ghost journal: Journal)
      returns (r: Result<SessionId, StartError>, ghost at: State)
      requires Valid()
      modifies this, manager, journal`actives
      ensures Valid() && Reachable(at) && at.waiting > 0 && at.startLock.None?
      // a refusal touches nothing but the queue
      ensures r.Err? && r.error.Typed? ==> View() == CallFails(at) && journal.actives == old(journal.actives)
      ensures profile == "" ==> r == Err(Typed(ProfileNotFound("(empty)")))
      ensures profile != "" && load.Err? ==> r == Err(Typed(load.error))
      ensures profile != "" && load.Ok? && at.mgr.slot.Some? ==>
                r == Err(Typed(SessionInUse(at.mgr.slot.value.sessionId)))
      // with a free slot a new session is reserved, and it runs exactly if nothing fails but the file's write
      ensures profile != "" && load.Ok? && at.mgr.slot.None? ==>
                if s.ready && s.up && s.found then r.Ok? else r.Err? && r.error.Abandoned?
      ensures r.Ok? ==> r.value in manager.lifecycleTasks
      ensures r.Ok? || r.error.Abandoned? ==>
                var id := if r.Ok? then r.value else r.error.id;
                && id !in at.pcs && id in infos && infos[id] == Info(profile, load.value, OutputPath(id))
                && id in pcs && (pcs[id].Listening? <==> r.Ok?)
                && Project(log, id) == (if !s.ready then [Reserve, Release]
                                        else if !s.up then [Reserve, Starting, Release, Failed]
                                        else [Reserve, Starting, Recording])
                && journal.actives == old(journal.actives)
                     + if s.ready && s.up && s.written then [ActiveFile(1, id, profile)] else []
    {
      hide Took, Reachable, OutputPath, CallFails, At;
      QueueCall();
      AwaitStartLock();
      at := View();
      if profile == "" {
        GiveUp();
        return Err(Typed(ProfileNotFound("(empty)"))), at;
      }
      if load.Err? {
        GiveUp();
        return Err(Typed(load.error)), at;
      }
      var reserved := ReserveSession(profile, load.value);
      if reserved.Err? {
        return Err(Typed(reserved.error)), at;
      }
      var started := StartReserved(reserved.value, s, journal);
      if started {
        return Ok(reserved.value), at;
      }
      r := Err(Abandoned(reserved.value));
    }

    // ---- stop_recording ---------------------------------------------------------------

    /** The answer is decided under the lock; the hook is called after it, with others running between. */
    method StopRecording(id: SessionId) returns (r: Result<SessionId, RpcError>)
      requires Valid()
      modifies this, manager
      ensures Valid()
      ensures var decision := old(View()).mgr.StopDecision(id);
              && (r == Ok(id) <==> decision == Stopped)
              && (r == Err(SessionUnknown(id)) <==> decision == Unknown)
              && (r.Err? && r.error.Transient? <==> decision == NotReady)
      ensures r.Ok? ==> id in reasons && reasons[id] != Running && Reply(id, Stopped) in replies
      ensures r.Err? ==> reasons == old(reasons) && fires == old(fires)
    {
      hide Reachable, Undisturbed;
      StopSteps(View(), id);
      var attempt, hook := manager.TryStop(id);
      match attempt {
        case Unknown =>
          replies := replies + {Reply(id, Unknown)};
          r := Err(SessionUnknown(id));
        case NotReady =>
          replies := replies + {Reply(id, NotReady)};
          r := Err(Transient("session " + id + " is starting up; stop hook not yet installed"));
        case Stopped =>
          var fire := Fire(id, hook.value);
          fires := fires + multiset{fire};
          FireLater(fire);
          r := Ok(id);
      }
    }

    /** The hook is called outside the lock, with others running before. */
    method FireLater(fire: Fire)
      requires Valid() && fire in fires
      modifies this, manager
      ensures Valid() && fire.asked == fire.recorder && fire.asked in reasons && reasons[fire.asked] == UserRequested
      ensures Reply(fire.asked, Stopped) in replies
    {
      hide Reachable, Took;
      Others(Mine(None, Some(fire), false));
      CallHook(fire);
    }

    method CallHook(fire: Fire)
      requires Valid() && fire in fires
      modifies this, manager
      ensures Valid() && Took(old(View()), FireHook(fire), View())
      ensures fire.asked == fire.recorder && fire.asked in reasons && reasons[fire.asked] == UserRequested
      ensures Reply(fire.asked, Stopped) in replies
    {
      hide Reachable, Took;
      FireChanges(View(), fire);
      fires := fires - multiset{fire};
      reasons := reasons[fire.recorder := UserRequested];
      replies := replies + {Reply(fire.asked, Stopped)};
    }

    // ---- shutdown ------------------------------------------------------------------------

    /** One sleep of the drain loop, with the other tasks running. */
    method Nap(ghost journal: Journal)
      requires Valid()
      modifies this, manager, journal`naps
      ensures Valid() && journal.naps == old(journal.naps) + 1
    {
      hide Reachable;
      Others(Mine(None, None, false));
      journal.naps := journal.naps + 1;
    }

    /**
     `polls` is how often the drain loop may sleep before its deadline, and `exit` the
     state in which it leaves off: it gives up undrained only after all of them.
     */
    method Shutdown(polls: nat, ghost journal: Journal)
      returns (pending: seq<SessionId>, drained: bool, ghost exit: State)
      requires Valid()
      modifies this, manager, journal`naps
      ensures Valid() && Reachable(exit) && View() == TasksTaken(DrainRequested(exit))
      ensures drained <==> exit.mgr.inflight == 0
      ensures old(journal.naps) <= journal.naps <= old(journal.naps) + polls
      ensures !drained ==> journal.naps == old(journal.naps) + polls
      ensures pending == exit.mgr.tasks && forall t | t in pending :: t in taken
      ensures drained ==> waiting == 0 && StopsAndShutdown.AllHandedOver(View())
                          && StopsAndShutdown.OwnerToldToStop(View())
      ensures Missed(View())
    {
      hide Reachable, View;
      var left := polls;
      while manager.inflightStarts > 0 && left > 0
        invariant Valid() && 0 <= left <= polls && journal.naps == old(journal.naps) + (polls - left)
        decreases left
      {
        Nap(journal);
        left := left - 1;
      }
      drained, exit := Counted();
      pending := DrainAndTake();
    }

    method Counted() returns (none: bool, ghost now: State)
      requires Valid()
      ensures now == View() && Reachable(now) && (none <==> now.mgr.inflight == 0)
      ensures none <==> manager.inflightStarts == 0
    {
      hide Reachable;
      none, now := manager.inflightStarts == 0, View();
    }

    method DrainAndTake() returns (pending: seq<SessionId>)
      requires Valid()
      modifies this, manager
      ensures Valid() && Took(old(View()), ShutdownTakes, View()) && forall t | t in pending :: t in taken
      ensures View() == TasksTaken(DrainRequested(old(View()))) && pending == old(View()).mgr.tasks
      ensures old(manager.inflightStarts) == 0 ==>
                waiting == 0 && StopsAndShutdown.AllHandedOver(View()) && StopsAndShutdown.OwnerToldToStop(View())
      ensures Missed(View())
    {
      hide Reachable, Took;
      ShutdownChanges(View());
      hide StopsAndShutdown.AllHandedOver, StopsAndShutdown.OwnerToldToStop, Missed, Halted;
      var hook := manager.CloneActiveHook();
      if hook.Some? {
        reasons := reasons[hook.value := UserRequested];
        drainAsked := drainAsked + {hook.value};
      }
      pending := manager.TakeLifecycleTasks();
      taken := taken + set t | t in pending;
    }
  }

  /** How many steps a call inside the start lock can still take when everything fails. */
  function StartSteps(pc: Pc): nat {
    match pc
    case Reserved => 1
    case StartingSent => 3
    case StartFailed => 2
    case StartFailedSent => 1
    case RecorderUp => 3
    case FileWritten => 2
    case RecordingSent => 1
    case _ => 0
  }

  lemma StepsRunOut(pc: Pc, auto: bool)
    requires InStart(pc)
    ensures var (act, next) := Instr(pc, auto, Fail); Returns(act) || StartSteps(next) < StartSteps(pc)
  {
  }

  lemma PerformMovesCalls(d: State, id: SessionId, act: Action, next: Pc)
    requires id in d.infos
    ensures
      var d' := After(d, id, act, next);
      && d'.pcs == d.pcs[id := next] && d'.waiting == d.waiting
      && d'.startLock == if Returns(act) then None else d.startLock
  {
  }

  // While it can be run, the holder of the start lock comes closer to dropping it.
  lemma HolderReturns(d: State) returns (d': State)
    requires Reachable(d) && d.startLock.Some?
    ensures Took(d, Advance(d.startLock.value, Fail), d') && Reachable(d') && d'.waiting == d.waiting
    ensures d.startLock.value in d.pcs && d.startLock.value in d.infos && d.startLock.value in d'.pcs
    ensures d' == TaskAdvances(d, d.startLock.value, Fail)
    ensures d'.startLock.None?
         || (d'.startLock == d.startLock
             && StartSteps(d'.pcs[d.startLock.value]) < StartSteps(d.pcs[d.startLock.value]))
  {
    var id := d.startLock.value;
    assert id in d.pcs && id in d.infos && id in d.reasons && InStart(d.pcs[id]) by { ReachableIsInv(d); }
    assert !Halted(d.pcs[id]) && !d.pcs[id].Listening?;
    var (act, next) := Instr(d.pcs[id], d.infos[id].auto, Fail);
    StepsRunOut(d.pcs[id], d.infos[id].auto);
    PerformMovesCalls(d, id, act, next);
    StepChanges(d, id, Fail, act, next);
    d' := After(d, id, act, next);
    hide Reachable, Instr, After, StartSteps, InStart, Took, Returns;
  }

  lemma RefuseChanges(d: State)
    requires Reachable(d) && d.waiting > 0 && d.startLock.None?
    ensures d.mgr.inflight > 0 && Took(d, Refuse, CallFails(d)) && Reachable(CallFails(d))
  {
    assert d.mgr.inflight > 0 by { ReachableIsInv(d); }
    ReachStep(d, Refuse);
    hide Reachable, CallFails;
  }

  // The two outcomes of a queued call that draws a fresh id.
  lemma AdmitChanges(d: State, id: SessionId, profile: string, auto: bool)
    requires Reachable(d) && d.waiting > 0 && d.startLock.None? && id !in d.pcs && id != "" && profile != ""
    ensures d.mgr.inflight > 0
    ensures d.mgr.slot.Some? ==> Reachable(CallFails(d))
    ensures d.mgr.slot.None? ==> Reachable(CallReserves(d, id, profile, auto))
  {
    assert d.mgr.inflight > 0 by { ReachableIsInv(d); }
    ReachStep(d, Admit(id, profile, auto));
    hide Reachable, OutputPath, CallFails, CallReserves;
  }

  /** The only session shutdown can have missed is the one inside the start lock. */
  ghost predicate Missed(d: State) {
    forall s | s in d.pcs && !Halted(d.pcs[s]) && s !in d.taken :: d.startLock == Some(s)
  }

  lemma ShutdownChanges(d: State)
    requires Reachable(d)
    ensures
      var d' := TasksTaken(DrainRequested(d));
      && Took(d, ShutdownTakes, d') && Reachable(d') && Missed(d')
      && (d.mgr.inflight == 0 ==>
            d'.waiting == 0 && StopsAndShutdown.AllHandedOver(d') && StopsAndShutdown.OwnerToldToStop(d'))
  {
    ReachStep(d, ShutdownTakes);
    StopsAndShutdown.ShutdownMissesOnlyTheStarter(d);
    if d.mgr.inflight == 0 {
      StopsAndShutdown.ShutdownIsComplete(d);
    }
    assert TasksTaken(DrainRequested(d)).startLock == d.startLock;
    hide Reachable, StopsAndShutdown.AllHandedOver, StopsAndShutdown.OwnerToldToStop;
    hide TasksTaken, DrainRequested, Halted;
  }

  lemma GuardIsCounted(d: State, id: SessionId)
    requires Reachable(d) && id in d.pcs && InStart(d.pcs[id])
    ensures d.startLock == Some(id) && d.mgr.inflight > 0
  {
    ReachableIsInv(d);
  }

  lemma FireChanges(d: State, fire: Fire)
    requires Reachable(d) && fire in d.fires
    ensures fire.asked == fire.recorder
    ensures Took(d, FireHook(fire), HookFires(d, fire)) && Reachable(HookFires(d, fire))
  {
    assert fire.asked == fire.recorder by { ReachableIsInv(d); }
    ReachStep(d, FireHook(fire));
    hide Reachable, HookFires;
  }

  lemma StopAims(d: State, id: SessionId)
    requires Reachable(d)
    ensures d.mgr.StopDecision(id) == Stopped ==> d.mgr.slot.value.stopHook == Some(id)
  {
    ReachableIsInv(d);
    if d.mgr.StopDecision(id) == Stopped {
      HookNamesOwner(d);
    }
  }

  lemma FinishedWord(how: Ending)
    ensures Word(Finished(how)) == BeforeTerminal(how) + [Terminal(how)]
  {
  }

  // What the ways of giving up, and a session that records, have said.
  lemma SaidByWord(d: State, id: SessionId)
    requires Reachable(d) && id in d.pcs
    ensures d.pcs[id].Silent? ==> Project(d.log, id) == [Reserve, Release]
    ensures d.pcs[id].Rejected? ==> Project(d.log, id) == [Reserve, Starting, Release, Failed]
    ensures d.pcs[id].Leaked? || d.pcs[id].Listening? ==> Project(d.log, id) == [Reserve, Starting, Recording]
  {
    hide Reachable, Inv, Project, Disciplined;
    ReachableIsInv(d);
    SignalOrder.InvOwnsLog(d);
  }

  lemma FinishedLetters(how: Ending)
    ensures var word := Word(Finished(how));
            && (RecordingComplete in word <==> !how.DrainPanic?)
            && (Stopping in word <==> !how.DrainPanic? && !how.RecorderError?)
            && (TranscriptComplete in word <==> how.WithTranscript?)
            && (Idle in word <==> how.WithTranscript? || how.AudioOnly?)
            && (Failed in word <==> !how.WithTranscript? && !how.AudioOnly?)
  {
    var word := Word(Finished(how));
    var n := |word|;
    assert word[n - 1] == Terminal(how);
    assert !how.DrainPanic? && !how.RecorderError? ==> word[3] == Stopping && word[4] == RecordingComplete;
    assert how.RecorderError? ==> word[3] == RecordingComplete;
    assert how.WithTranscript? ==> word[6] == TranscriptComplete;
  }

  lemma FinishedHasSpoken(d: State, id: SessionId, how: Ending)
    requires Reachable(d) && id in d.pcs && d.pcs[id] == Finished(how)
    ensures SignalOrder.Signals(Project(d.log, id)) == SignalOrder.Ended(how)
    ensures Project(d.log, id) == Word(Finished(how))
    ensures RecordingComplete in Project(d.log, id) <==> !how.DrainPanic?
    ensures Stopping in Project(d.log, id) <==> !how.DrainPanic? && !how.RecorderError?
    ensures TranscriptComplete in Project(d.log, id) <==> how.WithTranscript?
    ensures Idle in Project(d.log, id) <==> how.WithTranscript? || how.AudioOnly?
    ensures Failed in Project(d.log, id) <==> !how.WithTranscript? && !how.AudioOnly?
  {
    FinishedLetters(how);
    hide Reachable, Inv, Project, Word, BeforeTerminal, Terminal, SignalOrder.Signals, SignalOrder.Ended, Disciplined;
    ReachableIsInv(d);
    SignalOrder.InvOwnsLog(d);
    FinishedWord(how);
    SignalOrder.EndingSaysFullWord(how);
  }
}
