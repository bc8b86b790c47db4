/**
 The active-session file in every run, overlapping sessions included. A session writes
 it once, and a session that ends removes it, whosever it is (`emit_terminal_state` in
 `crates/zwhisperd/src/lifecycle.rs`); so a session that records while another is
 transcribing can lose its file. Here is by which steps, when, and what the file is
 after any run.
 */
module ActiveFiles {
  import opened Wrappers
  import opened SessionManagers
  import opened Protocol
  import opened ProtocolProofs
  import opened NoOverlap

  // ---- One step -----------------------------------------------------------------------------

  predicate Writes(d: State, e: Event) {
    e.Advance? && e.choice == Proceed && e.id in d.pcs && d.pcs[e.id].RecorderUp?
  }

  predicate Removes(d: State, e: Event) {
    e.Advance? && e.choice == Proceed && e.id in d.pcs && d.pcs[e.id].Closed?
  }

  lemma InstrTouches(pc: Pc, auto: bool, c: Choice)
    requires !Halted(pc)
    ensures Instr(pc, auto, c).0 == SaveActive(true) <==> c == Proceed && pc.RecorderUp?
    ensures Instr(pc, auto, c).0 == ClearActive(true) <==> c == Proceed && pc.Closed?
    ensures PastWrite(pc) ==> PastWrite(Instr(pc, auto, c).1)
    ensures pc.RecorderUp? ==> PastWrite(Instr(pc, auto, c).1)
    ensures pc.Closed? ==> Instr(pc, auto, c).1.Finished?
  {
  }

  /** `d'` differs from `d` in the file and the task of `id` only, as far as the file's history goes. */
  ghost predicate StepOf(d: State, id: SessionId, d': State) {
    && id in d.pcs && id in d'.pcs && d'.pcs == d.pcs[id := d'.pcs[id]] && d'.infos == d.infos
    && (HoldsSlot(d'.pcs[id]) ==> HoldsSlot(d.pcs[id]))
    && (PastWrite(d.pcs[id]) ==> PastWrite(d'.pcs[id]))
  }

  lemma AdvanceTouches(d: State, id: SessionId, c: Choice)
    requires Enabled(d, Advance(id, c))
    ensures
      var d' := TaskAdvances(d, id, c);
      && StepOf(d, id, d')
      && d'.active == (if Writes(d, Advance(id, c)) then Some(ActiveFile(SCHEMA_VERSION, id, d.infos[id].profile))
                       else if Removes(d, Advance(id, c)) then None
                       else d.active)
      && (Writes(d, Advance(id, c)) ==> PastWrite(d'.pcs[id]))
      && (Removes(d, Advance(id, c)) ==> d'.pcs[id].Finished?)
  {
    hide Instr, After, HoldsSlot, PastWrite;
    var (act, next) := Instr(d.pcs[id], d.infos[id].auto, c);
    InstrTouches(d.pcs[id], d.infos[id].auto, c);
    InstrSlotFacts(d.pcs[id], d.infos[id].auto, c);
    PerformMovesFile(d, id, act, next);
  }

  lemma AdvanceIsDone(d: State, id: SessionId, c: Choice)
    requires Enabled(d, Advance(id, c))
    ensures id in d.pcs && id in d.infos && Do(d, Advance(id, c)) == TaskAdvances(d, id, c)
  {
    hide TaskAdvances, Halted;
  }

  lemma OthersDoNotTouch(d: State, e: Event)
    requires d.infos.Keys == d.pcs.Keys && Enabled(d, e) && !e.Advance?
    ensures
      var d' := Do(d, e);
      && d'.active == d.active
      && (forall s | s in d.pcs :: s in d'.pcs && d'.pcs[s] == d.pcs[s])
      && (forall s | s in d.infos :: s in d'.infos && d'.infos[s] == d.infos[s])
  {
    hide TaskAdvances, HasRecorder, OutputPath;
  }

  /** What a step leaves of the sessions there were. */
  ghost predicate Continues(d: State, e: Event, d': State) {
    && (forall s | s in d.infos :: s in d'.infos && d'.infos[s] == d.infos[s])
    && (forall s | s in d.pcs ::
          && s in d'.pcs
          && (d'.pcs[s] == d.pcs[s] || (e.Advance? && e.id == s))
          && (HoldsSlot(d'.pcs[s]) ==> HoldsSlot(d.pcs[s]))
          && (PastWrite(d.pcs[s]) ==> PastWrite(d'.pcs[s])))
  }

  // Nothing but a successful write or removal moves the file.
  lemma StepTouches(d: State, e: Event)
    requires d.infos.Keys == d.pcs.Keys && Enabled(d, e)
    ensures
      var d' := Do(d, e);
      && Continues(d, e, d')
      && d'.active == (if Writes(d, e) then Some(ActiveFile(SCHEMA_VERSION, e.id, d.infos[e.id].profile))
                       else if Removes(d, e) then None
                       else d.active)
      && (Writes(d, e) ==> PastWrite(d'.pcs[e.id]))
      && (Removes(d, e) ==> d'.pcs[e.id].Finished?)
  {
    hide HoldsSlot, PastWrite, TaskAdvances, Do, Enabled;
    if e.Advance? {
      AdvanceIsDone(d, e.id, e.choice);
      AdvanceTouches(d, e.id, e.choice);
    } else {
      OthersDoNotTouch(d, e);
    }
  }

  lemma HolderWritesAlone(d: State, e: Event, s: SessionId)
    requires SlotOwned(d) && s in d.pcs && HoldsSlot(d.pcs[s]) && PastWrite(d.pcs[s])
    ensures !Writes(d, e) && (Removes(d, e) ==> e.id != s)
  {
    if Writes(d, e) {
      assert HoldsSlot(d.pcs[e.id]);
    }
  }

  // Once written the file stops naming the session exactly on a removal, or on another session's write. While
  // the session holds the slot nobody else writes, so only another's removal is left.
  lemma ActiveFileStops(d: State, e: Event, s: SessionId)
    requires Inv(d) && Enabled(d, e) && s in d.pcs && PastWrite(d.pcs[s]) && FileNames(d, s)
    ensures !FileNames(Do(d, e), s) <==> Writes(d, e) || Removes(d, e)
    ensures Writes(d, e) ==> e.id != s
    ensures HoldsSlot(d.pcs[s]) ==> !Writes(d, e) && (Removes(d, e) ==> e.id != s)
  {
    InvHasOwners(d);
    hide Do, Inv, HoldsSlot, Enabled, SlotOwned;
    StepTouches(d, e);
    if HoldsSlot(d.pcs[s]) {
      HolderWritesAlone(d, e, s);
    }
  }

  lemma InvHasOwners(d: State)
    requires Inv(d)
    ensures SlotOwned(d) && d.infos.Keys == d.pcs.Keys && d.reasons.Keys == d.pcs.Keys
  {
    hide SlotOwned, HookOwned, GuardsCounted, TasksRegistered, StopsPrecise, WordsKept, LogOwned, PathsOwned;
    hide OutputPath;
  }

  // ---- Every continuation ---------------------------------------------------------------------

  /** Past its release and not yet ended: its removal of the file is still to come. */
  predicate Winding(pc: Pc) {
    Live(pc) && !HoldsSlot(pc)
  }

  ghost predicate NoOtherWinding(d: State, s: SessionId) {
    forall t | t in d.pcs && t != s :: !Winding(d.pcs[t])
  }

  /** Whatever anyone does, the file names `s` for as long as it holds the slot. */
  ghost predicate FileHolds(d: State, s: SessionId) {
    forall es, d' :: Path(d, es, d') && s in d'.pcs && HoldsSlot(d'.pcs[s]) ==> FileNames(d', s)
  }

  lemma AdvanceWindsUp(d: State, t: SessionId, c: Choice)
    requires Enabled(d, Advance(t, c))
    ensures var d' := TaskAdvances(d, t, c);
            t in d'.pcs && (Winding(d'.pcs[t]) ==> Winding(d.pcs[t]) || HoldsSlot(d.pcs[t]))
  {
    hide Instr, After, HoldsSlot, Live;
    InstrSlotFacts(d.pcs[t], d.infos[t].auto, c);
    InstrCallFacts(d.pcs[t], d.infos[t].auto, c);
    PerformMovesSlot(d, t, Instr(d.pcs[t], d.infos[t].auto, c).0, Instr(d.pcs[t], d.infos[t].auto, c).1);
  }

  lemma NewcomersDoNotWind(d: State, e: Event)
    requires Enabled(d, e) && !e.Advance?
    ensures forall t | t in Do(d, e).pcs && t !in d.pcs :: !Winding(Do(d, e).pcs[t])
  {
    hide TaskAdvances, HasRecorder, OutputPath;
  }

  // Only the holder of the slot can come to be winding up, and that is `s`.
  lemma NoneStartsWinding(d: State, e: Event, s: SessionId)
    requires SlotOwned(d) && d.infos.Keys == d.pcs.Keys && Enabled(d, e)
    requires s in d.pcs && HoldsSlot(d.pcs[s]) && NoOtherWinding(d, s)
    ensures NoOtherWinding(Do(d, e), s)
  {
    hide HoldsSlot, Winding, TaskAdvances, PastWrite;
    if e.Advance? {
      AdvanceTouches(d, e.id, e.choice);
      AdvanceWindsUp(d, e.id, e.choice);
    } else {
      hide Do;
      OthersDoNotTouch(d, e);
      NewcomersDoNotWind(d, e);
    }
  }

  lemma RemoversAreWinding(d: State, e: Event)
    requires Removes(d, e)
    ensures Winding(d.pcs[e.id])
  {
  }

  // A session that has let go of the slot never has it again.
  lemma {:induction false} HeldThroughout(d: State, es: seq<Event>, d': State, s: SessionId)
    requires Inv(d) && Path(d, es, d') && s in d.pcs && s in d'.pcs && HoldsSlot(d'.pcs[s])
    ensures HoldsSlot(d.pcs[s])
    decreases |es|
  {
    if es != [] {
      InvHasOwners(d);
      StepKeepsInv(d, es[0]);
      StepTouches(d, es[0]);
      hide Inv, Do, Enabled, HoldsSlot, PastWrite;
      HeldThroughout(Do(d, es[0]), es[1..], d', s);
    }
  }

  lemma {:induction false} FileHoldsOn(d: State, es: seq<Event>, d': State, s: SessionId)
    requires Inv(d) && Path(d, es, d') && s in d.pcs && s in d'.pcs && HoldsSlot(d'.pcs[s])
    requires PastWrite(d.pcs[s]) && NoOtherWinding(d, s) && FileNames(d, s)
    ensures FileNames(d', s)
    decreases |es|
  {
    if es != [] {
      InvHasOwners(d);
      HeldThroughout(d, es, d', s);
      StepKeepsInv(d, es[0]);
      StepTouches(d, es[0]);
      NoneStartsWinding(d, es[0], s);
      ActiveFileStops(d, es[0], s);
      hide Inv, Do, Enabled, HoldsSlot, PastWrite, Winding, SlotOwned, FileNames, Removes;
      if Removes(d, es[0]) {
        RemoversAreWinding(d, es[0]);
      }
      FileHoldsOn(Do(d, es[0]), es[1..], d', s);
    }
  }

  function StepsToRemoval(pc: Pc): nat {
    if pc.Released? then 6 else if pc.JobSubmitted? then 5 else if pc.TranscriptReady? then 4
    else if pc.TranscriptSaved? then 3 else if pc.Closing? then 2 else 1
  }

  lemma InstrWindsUp(pc: Pc, auto: bool)
    requires Winding(pc)
    ensures
      var (act, next) := Instr(pc, auto, Proceed);
      if pc.Closed? then act == ClearActive(true) else Winding(next) && StepsToRemoval(next) < StepsToRemoval(pc)
  {
  }

  lemma WindingAdvances(d: State, t: SessionId)
    requires t in d.pcs && Winding(d.pcs[t]) && Enabled(d, Advance(t, Proceed))
    ensures
      var d' := Do(d, Advance(t, Proceed));
      && t in d'.pcs && d'.pcs == d.pcs[t := d'.pcs[t]]
      && (d.pcs[t].Closed? ==> d'.active.None?)
      && (!d.pcs[t].Closed? ==> Winding(d'.pcs[t]) && StepsToRemoval(d'.pcs[t]) < StepsToRemoval(d.pcs[t]))
  {
    hide Instr, After, Winding, StepsToRemoval;
    InstrWindsUp(d.pcs[t], d.infos[t].auto);
    var (act, next) := Instr(d.pcs[t], d.infos[t].auto, Proceed);
    PerformMovesFile(d, t, act, next);
  }

  lemma WindingIsEnabled(d: State, t: SessionId)
    requires Inv(d) && t in d.pcs && Winding(d.pcs[t])
    ensures Enabled(d, Advance(t, Proceed))
  {
    InvHasOwners(d);
    hide Inv, SlotOwned;
  }

  // A session that is winding up can remove the file, whatever it names, while every other task waits.
  lemma {:induction false} RemovalReached(d: State, t: SessionId) returns (es: seq<Event>, d': State)
    requires Inv(d) && t in d.pcs && Winding(d.pcs[t])
    ensures Path(d, es, d') && d'.active.None? && t in d'.pcs && d'.pcs == d.pcs[t := d'.pcs[t]]
    decreases StepsToRemoval(d.pcs[t])
  {
    hide Inv, Do, Enabled, Winding, StepsToRemoval;
    var e := Advance(t, Proceed);
    WindingIsEnabled(d, t);
    StepKeepsInv(d, e);
    WindingAdvances(d, t);
    if d.pcs[t].Closed? {
      es, d' := [e], Do(d, e);
      assert [e][1..] == [];
    } else {
      var rest;
      rest, d' := RemovalReached(Do(d, e), t);
      es := [e] + rest;
      assert es[1..] == rest;
    }
  }

  // The file names a session for as long as it holds the slot, in every continuation, exactly when no other
  // session is on its way from its release to its end.
  lemma FileHoldsExactly(d: State, s: SessionId)
    requires Reachable(d) && s in d.pcs && HoldsSlot(d.pcs[s]) && PastWrite(d.pcs[s]) && FileNames(d, s)
    ensures FileHolds(d, s) <==> NoOtherWinding(d, s)
  {
    hide Reachable, Path, Inv, Winding, HoldsSlot, PastWrite;
    ReachableIsInv(d);
    if NoOtherWinding(d, s) {
      forall es, d' | Path(d, es, d') && s in d'.pcs && HoldsSlot(d'.pcs[s])
        ensures FileNames(d', s)
      {
        FileHoldsOn(d, es, d', s);
      }
    } else {
      var t :| t in d.pcs && t != s && Winding(d.pcs[t]);
      var es, d' := RemovalReached(d, t);
      assert Path(d, es, d') && d'.pcs[s] == d.pcs[s] && !FileNames(d', s);
    }
  }

  // A file that is gone stays gone for as long as the session that wrote it holds the slot.
  lemma {:induction false} GoneForGood(d: State, es: seq<Event>, d': State, s: SessionId)
    requires Inv(d) && Path(d, es, d') && s in d.pcs && s in d'.pcs && HoldsSlot(d'.pcs[s])
    requires PastWrite(d.pcs[s]) && d.active.None?
    ensures d'.active.None?
    decreases |es|
  {
    if es != [] {
      InvHasOwners(d);
      HeldThroughout(d, es, d', s);
      StepKeepsInv(d, es[0]);
      StepTouches(d, es[0]);
      HolderWritesAlone(d, es[0], s);
      hide Inv, Do, Enabled, HoldsSlot, PastWrite, SlotOwned, Writes, Removes;
      GoneForGood(Do(d, es[0]), es[1..], d', s);
    }
  }

  // ---- The history of the file ------------------------------------------------------------------

  datatype Touch = Written(session: SessionId) | Removed(session: SessionId)

  function TouchOf(d: State, e: Event): seq<Touch> {
    if Writes(d, e) then [Written(e.id)] else if Removes(d, e) then [Removed(e.id)] else []
  }

  /** The successful writes and removals of a run, in order. */
  ghost function Touches(d: State, es: seq<Event>): seq<Touch>
    decreases |es|
  {
    if es == [] || !Enabled(d, es[0]) then [] else TouchOf(d, es[0]) + Touches(Do(d, es[0]), es[1..])
  }

  /** Some run, over any state files, has come to `d` with these writes and removals. */
  ghost predicate Ran(d: State, touches: seq<Touch>) {
    exists active, last, es ::
      LastFileIsOwn(last) && Path(Init(active, last), es, d) && touches == Touches(Init(active, last), es)
  }

  ghost predicate LastTouchShows(d: State, touches: seq<Touch>) {
    touches != [] ==>
      var touch := touches[|touches| - 1];
      if touch.Written? then FileNames(d, touch.session) else d.active.None?
  }

  /** Who has written is past its write, and who has removed the file has ended. */
  ghost predicate TouchersMoved(d: State, touches: seq<Touch>) {
    forall k | 0 <= k < |touches| ::
      var s := touches[k].session;
      s in d.pcs && if touches[k].Written? then PastWrite(d.pcs[s]) else d.pcs[s].Finished?
  }

  /** After a session's write it does not write again, and while it holds the slot nobody does. */
  ghost predicate WritesInOrder(d: State, touches: seq<Touch>) {
    forall i, k | 0 <= i < k < |touches| && touches[i].Written? ::
      && touches[k] != touches[i]
      && (touches[i].session in d.pcs && HoldsSlot(d.pcs[touches[i].session]) ==> touches[k].Removed?)
  }

  ghost predicate HistoryInv(d: State, touches: seq<Touch>) {
    LastTouchShows(d, touches) && TouchersMoved(d, touches) && WritesInOrder(d, touches)
  }

  lemma TouchKeepsLast(d: State, touches: seq<Touch>, e: Event)
    requires d.infos.Keys == d.pcs.Keys && Enabled(d, e) && LastTouchShows(d, touches)
    ensures LastTouchShows(Do(d, e), touches + TouchOf(d, e))
  {
    hide Do, Enabled, HoldsSlot, PastWrite;
    StepTouches(d, e);
    if TouchOf(d, e) == [] {
      assert touches + TouchOf(d, e) == touches;
    }
  }

  lemma TouchKeepsMoved(d: State, touches: seq<Touch>, e: Event)
    requires d.infos.Keys == d.pcs.Keys && Enabled(d, e) && TouchersMoved(d, touches)
    ensures TouchersMoved(Do(d, e), touches + TouchOf(d, e))
  {
    assert e.Advance? ==> !Halted(d.pcs[e.id]);
    hide Do, Enabled, HoldsSlot, PastWrite;
    StepTouches(d, e);
  }

  lemma TouchKeepsOrder(d: State, touches: seq<Touch>, e: Event)
    requires SlotOwned(d) && d.infos.Keys == d.pcs.Keys && Enabled(d, e)
    requires TouchersMoved(d, touches) && WritesInOrder(d, touches)
    ensures WritesInOrder(Do(d, e), touches + TouchOf(d, e))
  {
    hide Do, Enabled, HoldsSlot, SlotOwned;
    StepTouches(d, e);
    var touches' := touches + TouchOf(d, e);
    forall i, k | 0 <= i < k < |touches'| && touches'[i].Written?
      ensures touches'[k] != touches'[i]
      ensures touches'[i].session in Do(d, e).pcs && HoldsSlot(Do(d, e).pcs[touches'[i].session]) ==>
                touches'[k].Removed?
    {
      var s := touches'[i].session;
      assert touches'[i] == touches[i] && s in d.pcs && PastWrite(d.pcs[s]);
      if k == |touches| && HoldsSlot(d.pcs[s]) {
        HolderWritesAlone(d, e, s);
      }
    }
  }

  lemma StepKeepsHistory(d: State, touches: seq<Touch>, e: Event)
    requires Inv(d) && HistoryInv(d, touches) && Enabled(d, e)
    ensures HistoryInv(Do(d, e), touches + TouchOf(d, e))
  {
    hide Inv, Do, Enabled, LastTouchShows, TouchersMoved, WritesInOrder, SlotOwned, TouchOf;
    InvHasOwners(d);
    TouchKeepsLast(d, touches, e);
    TouchKeepsMoved(d, touches, e);
    TouchKeepsOrder(d, touches, e);
  }

  lemma {:induction false} PathKeepsHistory(d: State, touches: seq<Touch>, es: seq<Event>, d': State)
    requires Inv(d) && HistoryInv(d, touches) && Path(d, es, d')
    ensures Inv(d') && HistoryInv(d', touches + Touches(d, es))
    decreases |es|
  {
    hide Inv, Do, Enabled, HistoryInv, TouchOf;
    if es == [] {
      assert touches + Touches(d, es) == touches;
    } else {
      StepKeepsInv(d, es[0]);
      StepKeepsHistory(d, touches, es[0]);
      PathKeepsHistory(Do(d, es[0]), touches + TouchOf(d, es[0]), es[1..], d');
      assert touches + TouchOf(d, es[0]) + Touches(Do(d, es[0]), es[1..]) == touches + Touches(d, es);
    }
  }

  lemma RanKeepsHistory(d: State, touches: seq<Touch>)
    requires Ran(d, touches)
    ensures Inv(d) && HistoryInv(d, touches)
  {
    hide Inv, Path, Touches, HistoryInv, Init;
    var active, last, es :|
      LastFileIsOwn(last) && Path(Init(active, last), es, d) && touches == Touches(Init(active, last), es);
    InitHolds(active, last);
    assert HistoryInv(Init(active, last), []) by { NoHistory(Init(active, last)); }
    PathKeepsHistory(Init(active, last), [], es, d);
    assert [] + touches == touches;
  }

  lemma NoHistory(d: State)
    ensures HistoryInv(d, [])
  {
  }

  // In every run the file names a session that has written it exactly when nobody has written or removed it
  // since. Until the session's end only others have, and while it holds the slot only by removing it.
  lemma NamedExactly(d: State, touches: seq<Touch>, i: nat)
    requires Ran(d, touches) && i < |touches| && touches[i].Written?
    ensures
      var s := touches[i].session;
      && s in d.pcs && s in d.infos
      && (FileNames(d, s) <==> i == |touches| - 1)
      && (!FileNames(d, s) ==> d.active.None? || d.active.value.sessionId != s)
      && (!d.pcs[s].Finished? ==> forall k | i < k < |touches| :: touches[k].session != s)
      && (HoldsSlot(d.pcs[s]) ==>
            (FileNames(d, s) <==> !exists k :: i < k < |touches| && touches[k].Removed? && touches[k].session != s))
  {
    hide Ran, Inv, HoldsSlot, PastWrite;
    RanKeepsHistory(d, touches);
    InvHasOwners(d);
    var s := touches[i].session;
    assert s in d.pcs;
    if HoldsSlot(d.pcs[s]) {
      HoldersGoOn(d.pcs[s]);
      if i < |touches| - 1 {
        assert touches[i + 1].Removed? && touches[i + 1].session != s;
      }
    }
    var final := touches[|touches| - 1];
    assert i < |touches| - 1 ==> final != touches[i];
  }

  lemma HoldersGoOn(pc: Pc)
    requires HoldsSlot(pc)
    ensures !pc.Finished?
  {
  }

  // ---- The toggle ---------------------------------------------------------------------------------

  // A move of the composition is at most one step of the daemon.
  lemma MoveIsStep(w: World, m: Move)
    requires Possible(w, m)
    ensures Make(w, m).d == w.d || exists e :: Enabled(w.d, e) && Make(w, m).d == Do(w.d, e)
  {
    hide StopArrives, CallQueues;
    if m.Daemon? {
      hide Do, Enabled;
    } else if m.SendStart? {
      assert Enabled(w.d, Call) && Make(w, m).d == Do(w.d, Call);
    } else if m.SendStop? {
      assert Enabled(w.d, StopCall(w.phase.id)) && Make(w, m).d == Do(w.d, StopCall(w.phase.id));
    }
  }

  lemma {:induction false} TrailReaches(w: World, ms: seq<Move>, w': World)
    requires Reachable(w.d) && Trail(w, ms, w')
    ensures Reachable(w'.d)
    decreases |ms|
  {
    hide Reachable, Make, Possible, Do, Enabled;
    if ms != [] {
      MoveIsStep(w, ms[0]);
      if Make(w, ms[0]).d != w.d {
        var e :| Enabled(w.d, e) && Make(w, ms[0]).d == Do(w.d, e);
        ReachStep(w.d, e);
      }
      TrailReaches(Make(w, ms[0]), ms[1..], w');
    }
  }

  // Every run of the daemon and the toggle client is one of the daemon, so what is said here holds of it.
  lemma ArisesIsReachable(w: World)
    requires Arises(w)
    ensures Reachable(w.d)
  {
    var active, last, ms :| LastFileIsOwn(last) && Trail(Boot(active, last), ms, w);
    assert Path(Init(active, last), [], Init(active, last)) && Leads(Init(active, last), Init(active, last));
    assert Reachable(Boot(active, last).d);
    hide Reachable, Trail, Boot;
    TrailReaches(Boot(active, last), ms, w);
  }

  /** The client is about to stop a session, or has asked to. */
  predicate AsksToStop(phase: Phase) {
    phase.SawRecording? || phase.StopPending?
  }

  lemma MoveContinues(w: World, m: Move, s: SessionId)
    requires Inv(w.d) && Possible(w, m) && s in w.d.pcs
    ensures
      var d' := Make(w, m).d;
      && Inv(d') && s in d'.pcs
      && (HoldsSlot(d'.pcs[s]) ==> HoldsSlot(w.d.pcs[s]))
      && (PastWrite(w.d.pcs[s]) ==> PastWrite(d'.pcs[s]))
      && (HoldsSlot(w.d.pcs[s]) && PastWrite(w.d.pcs[s]) && w.d.active.None? ==> d'.active.None?)
  {
    MoveIsStep(w, m);
    InvHasOwners(w.d);
    hide Inv, Make, Possible, Do, Enabled, HoldsSlot, PastWrite, SlotOwned, Writes, Removes;
    if Make(w, m).d != w.d {
      var e :| Enabled(w.d, e) && Make(w, m).d == Do(w.d, e);
      StepKeepsInv(w.d, e);
      StepTouches(w.d, e);
      if HoldsSlot(w.d.pcs[s]) && PastWrite(w.d.pcs[s]) {
        HolderWritesAlone(w.d, e, s);
      }
    }
  }

  lemma NoFileNoStop(w: World, m: Move)
    requires Possible(w, m) && w.d.active.None? && !AsksToStop(w.phase)
    ensures !AsksToStop(Make(w, m).phase)
  {
    hide Do, Enabled, Serves;
  }

  lemma {:induction false} HeldOnTrail(w: World, ms: seq<Move>, w': World, s: SessionId)
    requires Inv(w.d) && Trail(w, ms, w') && s in w.d.pcs && s in w'.d.pcs && HoldsSlot(w'.d.pcs[s])
    ensures HoldsSlot(w.d.pcs[s])
    decreases |ms|
  {
    hide Inv, Make, Possible, HoldsSlot, PastWrite;
    if ms != [] {
      MoveContinues(w, ms[0], s);
      HeldOnTrail(Make(w, ms[0]), ms[1..], w', s);
    }
  }

  // A recording whose file is gone is one that no press can stop: for as long as it holds the slot the client
  // never comes to ask for a stop.
  lemma {:induction false} NoPressStopsIt(w: World, ms: seq<Move>, w': World, s: SessionId)
    requires Inv(w.d) && Trail(w, ms, w') && s in w.d.pcs && s in w'.d.pcs && HoldsSlot(w'.d.pcs[s])
    requires PastWrite(w.d.pcs[s]) && w.d.active.None? && !AsksToStop(w.phase)
    ensures !AsksToStop(w'.phase) && w'.d.active.None?
    decreases |ms|
  {
    hide Inv, Make, Possible, HoldsSlot, PastWrite, AsksToStop;
    if ms != [] {
      HeldOnTrail(w, ms, w', s);
      MoveContinues(w, ms[0], s);
      NoFileNoStop(w, ms[0]);
      NoPressStopsIt(Make(w, ms[0]), ms[1..], w', s);
    }
  }
}
