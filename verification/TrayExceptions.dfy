/**
 The two exceptions of `TrayPump.TrayConverges` arise: runs of daemon and tray, tick by
 tick, after which every session has come to its end and the tray still shows a recording.
 */
module TrayExceptions {
  import opened Wrappers
  import opened SessionManagers
  import opened Protocol
  import opened ProtocolProofs
  import opened TrayPump
  import Tray
  import Walks

  lemma {:induction false} TraceSnoc(w: World, ts: seq<Tick>, w1: World, t: Tick)
    requires Trace(w, ts, w1) && Could(w1, t)
    ensures Trace(w, ts + [t], Happen(w1, t))
    decreases |ts|
  {
    hide Happen, Could;
    if ts == [] {
      assert ts + [t] == [t] && [t][1..] == [];
    } else {
      assert (ts + [t])[0] == ts[0] && (ts + [t])[1..] == ts[1..] + [t];
      TraceSnoc(Happen(w, ts[0]), ts[1..], w1, t);
    }
  }

  lemma EmergesStep(w: World, t: Tick)
    requires Emerges(w) && Could(w, t)
    ensures Emerges(Happen(w, t))
  {
    hide Happen, Could, Starts;
    var w0, ts :| Starts(w0) && Trace(w0, ts, w);
    TraceSnoc(w0, ts, w, t);
  }

  // The daemon alone may run while the tray is offline.
  lemma {:induction false} PathTraces(w: World, es: seq<Event>, d': State) returns (ts: seq<Tick>)
    requires Path(w.d, es, d')
    ensures Trace(w, ts, w.(d := d'))
    decreases |es|
  {
    if es == [] {
      ts := [];
    } else {
      var t := Daemon(es[0]);
      var w1 := w.(d := Do(w.d, es[0]));
      assert Could(w, t) && Happen(w, t) == w1;
      hide Do, Enabled, Happen, Could;
      var rest := PathTraces(w1, es[1..], d');
      ts := [t] + rest;
      assert ts[1..] == rest;
    }
  }

  const BLANK := Tray.Panel(Tray.DaemonOffline, None, None, None, None)

  const UNCONNECTED := Pump(Offline, 0, 0, 0, 0, None, 0, None, None, false)

  // A tray comes up beside a daemon in any state it can be in.
  lemma Beside(d: State) returns (w: World)
    requires Reachable(d)
    ensures Emerges(w) && w == World(d, BLANK, UNCONNECTED)
  {
    var active, last :| LastFileIsOwn(last) && Leads(Init(active, last), d);
    var es :| Path(Init(active, last), es, d);
    var w0 := World(Init(active, last), BLANK, UNCONNECTED);
    assert Starts(w0);
    hide Path, Init, Starts;
    var ts := PathTraces(w0, es, d);
    w := w0.(d := d);
  }

  // It opens its streams and asks for the status.
  lemma Connected(w: World) returns (w': World)
    requires Emerges(w) && w.pump.phase.Offline?
    ensures Emerges(w') && w'.d == w.d && w'.pump.phase.SawStatus? && w'.pump.lossless
    ensures w'.pump.since == w'.pump.states == |w.d.log|
    ensures w'.pump.seen == if w.d.mgr.slot.Some? then Some(w.d.mgr.slot.value.sessionId) else None
  {
    hide Emerges;
    EmergesStep(w, Open(StateStream));
    w' := w.(pump := Opened(w.pump, StateStream, |w.d.log|));
    EmergesStep(w', Open(RecordingStream));
    w' := w'.(pump := Opened(w'.pump, RecordingStream, |w.d.log|));
    EmergesStep(w', Open(TranscriptStream));
    w' := w'.(pump := Opened(w'.pump, TranscriptStream, |w.d.log|));
    EmergesStep(w', AskStatus);
    w' := w'.(pump := Asked(w'.d, w'.pump));
  }

  // It reads the files and shows the snapshot.
  lemma WentLive(w: World) returns (w': World)
    requires Emerges(w) && w.pump.phase.SawStatus?
    ensures Emerges(w') && w'.d == w.d && w'.pump.phase.Live? && w'.pump.lossless == w.pump.lossless
    ensures w'.pump.since == w.pump.since && w'.pump.states == w.pump.states && w'.pump.seen == w.pump.seen
  {
    hide Emerges, Shown, ReadActiveFile, ReadIf;
    EmergesStep(w, ReadLast(true));
    w' := Happen(w, ReadLast(true));
    EmergesStep(w', ReadActive(true));
    w' := Happen(w', ReadActive(true));
    EmergesStep(w', Show(0));
    w' := Happen(w', Show(0));
  }

  /** In a world that emerges, the task of `id` is suspended at `pc` and is the only one. */
  ghost predicate Alone(w: World, id: SessionId, pc: Pc) {
    Emerges(w) && w.d.pcs == map[id := pc] && id in w.d.infos && id in w.d.reasons
  }

  // One step of that task, with what it says.
  lemma Stepped(w: World, id: SessionId, pc: Pc, c: Choice) returns (w': World)
    requires Alone(w, id, pc) && !Halted(pc) && !pc.Listening?
    ensures
      var (act, next) := Instr(pc, w.d.infos[id].auto, c);
      && Alone(w', id, next) && w'.pump == w.pump && w'.d.infos == w.d.infos
      && |w'.d.log| == |w.d.log| + |Said(act)| && w.d.log <= w'.d.log
      && (Said(act) != [] ==> w'.d.log[|w.d.log|].letter == Said(act)[0] && w'.d.log[|w.d.log|].session == id)
  {
    hide Emerges, Instr, After, Halted, Said;
    var (act, next) := Instr(pc, w.d.infos[id].auto, c);
    EmergesStep(w, Daemon(Advance(id, c)));
    w' := w.(d := TaskAdvances(w.d, id, c));
    PerformMovesSlot(w.d, id, act, next);
    var more := PerformMovesLog(w.d, id, act, next);
    assert w.d.pcs[id := next] == map[id := next];
    assert more != [] ==> w'.d.log[|w.d.log|] == more[0] && [more[0].letter][0] == more[0].letter;
  }

  // The tray takes the one entry it has not seen, and with every session ended it is not settled.
  lemma TakesLast(w: World, id: SessionId, pc: Pc) returns (w': World)
    requires Alone(w, id, pc) && Halted(pc) && w.pump.phase.Live? && w.pump.lossless
    requires w.pump.since == w.pump.states == |w.d.log| - 1
    ensures Emerges(w') && w'.d == w.d && w'.pump == w.pump.(states := |w.d.log|)
    ensures Quiescent(w'.d)
  {
    hide Emerges, TakesState, Halted;
    EmergesStep(w, TakeState(0));
    w' := Happen(w, TakeState(0));
  }

  // The tray sees the slot held in its snapshot by a session that then gives up without a signal.
  lemma SilentIsShownRecording() returns (w: World, s: SessionId)
    ensures Emerges(w) && w.pump.phase.Live? && w.pump.lossless && w.pump.states == |w.d.log| && Quiescent(w.d)
    ensures !Settled(w.panel) && s in w.d.pcs && w.d.pcs[s].Silent? && w.pump.seen == Some(s)
    ensures LastTaken(w.d.log, w.pump.since, |w.d.log|).None?
  {
    hide Emerges, Reachable, Settled, Inv;
    s := "a";
    var d := Walks.Called(1);
    d := Walks.Begun(d, s);
    SlotIsHeld(d, s);
    w := Beside(d);
    assert d.pcs == map[s := Reserved];
    w := Connected(w);
    w := WentLive(w);
    w := Stepped(w, s, Reserved, Fail);
    w := TakesLast(w, s, Silent);
    TrayConverges(w);
  }

  lemma SlotIsHeld(d: State, s: SessionId)
    requires Walks.Task(d, s, Reserved)
    ensures d.mgr.slot.Some? && d.mgr.slot.value.sessionId == s
  {
    hide Reachable, GuardsCounted, WordsKept, HookOwned, TasksRegistered, StopsPrecise, LogOwned, PathsOwned, Domains;
    ReachableIsInv(d);
  }

  // One session, about to say "recording", and a tray that is not yet connected.
  lemma AboutToRecord() returns (w: World, s: SessionId)
    ensures Alone(w, s, FileWritten) && w.pump.phase.Offline?
  {
    hide Emerges, Reachable;
    s := "a";
    var d := Walks.Called(1);
    d := Walks.Begun(d, s);
    w := Beside(d);
    assert d.pcs == map[s := Reserved];
    w := Stepped(w, s, Reserved, Proceed);
    w := Stepped(w, s, StartingSent, Proceed);
    w := Stepped(w, s, RecorderUp, Proceed);
  }

  // It says so to a live tray, and leaks the slot.
  lemma SaysAndLeaks(w: World, s: SessionId) returns (w': World)
    requires Alone(w, s, FileWritten)
    ensures Alone(w', s, Leaked) && w'.pump == w.pump && |w'.d.log| == |w.d.log| + 1
    ensures w'.d.log[|w.d.log|].letter == Recording && w'.d.log[|w.d.log|].session == s
  {
    hide Alone, Emerges;
    w' := Stepped(w, s, FileWritten, Proceed);
    w' := Stepped(w', s, RecordingSent, Fail);
  }

  // The last state signal the tray takes is the "recording" of a session that then leaks the slot.
  lemma LeakedIsShownRecording() returns (w: World, s: SessionId)
    ensures Emerges(w) && w.pump.phase.Live? && w.pump.lossless && w.pump.states == |w.d.log| && Quiescent(w.d)
    ensures !Settled(w.panel) && s in w.d.pcs && w.d.pcs[s].Leaked?
    ensures var m := LastTaken(w.d.log, w.pump.since, |w.d.log|); m.Some? && w.d.log[m.value].session == s
  {
    hide Emerges, Reachable, Settled, Inv;
    w, s := AboutToRecord();
    w := Connected(w);
    w := WentLive(w);
    w := SaysAndLeaks(w, s);
    w := TakesLast(w, s, Leaked);
    TrayConverges(w);
  }
}
