/** Runs of the protocol machine built step by step, for the results that need a concrete one. */
module Walks {
  import opened Wrappers
  import opened SessionManagers
  import opened Protocol
  import opened ProtocolProofs

  /** In the reachable state `d`, the task of `id` is suspended at `pc`. */
  ghost predicate Task(d: State, id: SessionId, pc: Pc) {
    Reachable(d) && id in d.pcs && id in d.infos && id in d.reasons && d.pcs[id] == pc
  }

  /** Only the task of `id` has moved. */
  ghost predicate Alone(d: State, id: SessionId, d': State) {
    id in d'.pcs && d'.pcs == d.pcs[id := d'.pcs[id]] && d'.infos == d.infos && d'.waiting == d.waiting
  }

  lemma MovesAlone(d: State, id: SessionId, act: Action, next: Pc)
    requires id in d.infos && id in d.pcs
    ensures
      var d' := After(d, id, act, next);
      && Alone(d, id, d') && d'.pcs[id] == next && d'.reasons == d.reasons
      && (Frees(act) ==> d'.mgr.slot.None?)
      && (!Frees(act) && !act.Spawn? ==> d'.mgr.slot == d.mgr.slot)
      && d'.startLock == (if Returns(act) then None else d.startLock)
  {
  }

  // One step of a task.
  lemma Advanced(d: State, id: SessionId, pc: Pc, c: Choice) returns (d': State)
    requires Task(d, id, pc) && !Halted(pc) && (pc.Listening? ==> c != Proceed)
    ensures Task(d', id, Instr(pc, d.infos[id].auto, c).1) && Alone(d, id, d')
    ensures
      var act := Instr(pc, d.infos[id].auto, c).0;
      && (Frees(act) ==> d'.mgr.slot.None?)
      && (!Frees(act) && !act.Spawn? ==> d'.mgr.slot == d.mgr.slot)
      && d'.startLock == (if Returns(act) then None else d.startLock)
  {
    hide Reachable, Instr, After, Halted, Alone, Frees, Returns;
    MovesAlone(d, id, Instr(pc, d.infos[id].auto, c).0, Instr(pc, d.infos[id].auto, c).1);
    d' := TaskAdvances(d, id, c);
    ReachStep(d, Advance(id, c));
  }

  // `calls` start calls are made.
  lemma Called(calls: nat) returns (d: State)
    ensures Reachable(d) && d.waiting == calls && d.pcs == map[] && d.mgr.slot.None? && d.startLock.None?
  {
    d := Init(None, None);
    assert Path(d, [], d) && Leads(d, d);
    assert Reachable(d);
    hide Reachable;
    for k := 0 to calls
      invariant Reachable(d) && d.waiting == k && d.pcs == map[] && d.mgr.slot.None? && d.startLock.None?
    {
      ReachStep(d, Call);
      d := CallQueues(d);
    }
  }

  lemma CallsAreCounted(d: State)
    requires Reachable(d)
    ensures d.mgr.inflight >= d.waiting && d.pcs.Keys == d.infos.Keys && d.pcs.Keys == d.reasons.Keys
  {
    hide SlotOwned, HookOwned, TasksRegistered, StopsPrecise, WordsKept, LogOwned, PathsOwned, Reachable, OutputPath;
    ReachableIsInv(d);
  }

  // A queued call reserves the free slot for `id`.
  lemma Begun(d: State, id: SessionId) returns (d': State)
    requires Reachable(d) && d.waiting > 0 && d.mgr.slot.None? && d.startLock.None? && id !in d.pcs && id != ""
    ensures Task(d', id, Reserved) && d'.infos[id].auto && d'.pcs == d.pcs[id := Reserved]
    ensures d'.waiting == d.waiting - 1 && (forall t | t in d.infos :: t in d'.infos && d'.infos[t] == d.infos[t])
  {
    hide Reachable, OutputPath;
    CallsAreCounted(d);
    ReachStep(d, Admit(id, "p", true));
    d' := CallReserves(d, id, "p", true);
  }

  // A session that has begun is announced.
  lemma Announced(d: State, id: SessionId) returns (d': State)
    requires Task(d, id, Reserved)
    ensures Task(d', id, RecordingSent) && Alone(d, id, d')
  {
    hide Task, Frees, Returns;
    d' := Advanced(d, id, Reserved, Proceed);
    d' := Advanced(d', id, StartingSent, Proceed);
    d' := Advanced(d', id, RecorderUp, Proceed);
    d' := Advanced(d', id, FileWritten, Proceed);
  }

  // Its call returns, and it records until its stop channel closes.
  lemma Recorded(d: State, id: SessionId) returns (d': State)
    requires Task(d, id, RecordingSent)
    ensures Task(d', id, Draining) && Alone(d, id, d') && d'.startLock.None?
  {
    hide Task, Frees;
    d' := Advanced(d, id, RecordingSent, Proceed);
    d' := Advanced(d', id, Listening, Fail);
  }

  // It drains and is saved.
  lemma Saved(d: State, id: SessionId) returns (d': State)
    requires Task(d, id, Draining) && d.startLock.None?
    ensures Task(d', id, LastWritten(true)) && Alone(d, id, d') && d'.startLock.None?
  {
    hide Task, Frees;
    d' := Advanced(d, id, Draining, Proceed);
    d' := Advanced(d', id, DrainedOk, Proceed);
    d' := Advanced(d', id, StoppingSent, Proceed);
  }

  // It frees the slot and is being transcribed.
  lemma Transcribed(d: State, id: SessionId) returns (d': State)
    requires Task(d, id, LastWritten(true)) && d.infos[id].auto && d.startLock.None?
    ensures Task(d', id, JobSubmitted) && Alone(d, id, d') && d'.startLock.None? && d'.mgr.slot.None?
  {
    hide Reachable;
    d' := Advanced(d, id, LastWritten(true), Proceed);
    d' := Advanced(d', id, CompleteSent(true), Proceed);
    d' := Advanced(d', id, Released(true), Proceed);
  }

  // From its call to its save.
  lemma BegunToSaved(d: State, id: SessionId) returns (d': State)
    requires Reachable(d) && d.waiting > 0 && d.mgr.slot.None? && d.startLock.None? && id !in d.pcs && id != ""
    ensures Task(d', id, LastWritten(true)) && d'.infos[id].auto && d'.startLock.None?
    ensures d'.pcs == d.pcs[id := LastWritten(true)] && d'.waiting == d.waiting - 1
    ensures forall t | t in d.infos :: t in d'.infos && d'.infos[t] == d.infos[t]
  {
    hide Reachable;
    d' := Begun(d, id);
    d' := Announced(d', id);
    d' := Recorded(d', id);
    d' := Saved(d', id);
  }
}
