/**
 Each of the three faults alone makes sessions overlap: runs of the daemon and the
 toggle client of `NoOverlap`, built move by move. With `NoFaultsNoOverlap` this makes
 the condition of the no-overlap result exact.
 */
module Overlaps {
  import opened Wrappers
  import opened SessionManagers
  import opened Protocol
  import opened ProtocolProofs
  import opened NoOverlap

  /** In a world that arises, the task of `id` is suspended at `pc`. */
  ghost predicate At(w: World, id: SessionId, pc: Pc) {
    Arises(w) && id in w.d.pcs && id in w.d.infos && id in w.d.reasons && w.d.pcs[id] == pc
  }

  /** `w'` differs from `w` in the task of `id` at most, as far as these runs need to know. */
  ghost predicate OnlyTask(w: World, id: SessionId, w': World) {
    && id in w'.d.pcs && w'.d.pcs == w.d.pcs[id := w'.d.pcs[id]] && w'.d.infos == w.d.infos
    && w'.d.waiting == w.d.waiting && w'.phase == w.phase && w'.overlapped == w.overlapped
  }

  // One step of the task of `id`.
  lemma Advanced(w: World, id: SessionId, pc: Pc, c: Choice) returns (w': World)
    requires At(w, id, pc) && !Halted(pc) && (pc.Listening? ==> c != Proceed)
    ensures At(w', id, Instr(pc, w.d.infos[id].auto, c).1) && OnlyTask(w, id, w')
    ensures
      var act := Instr(pc, w.d.infos[id].auto, c).0;
      && w'.own == Served(w.own, id, act)
      && w'.faults == (if act == SaveActive(false) then w.faults + {WriteFault} else w.faults)
      && w'.d.active == (if act == SaveActive(true) then Some(ActiveFile(SCHEMA_VERSION, id, w.d.infos[id].profile))
                         else if act == ClearActive(true) then None
                         else w.d.active)
      && (Frees(act) ==> w'.d.mgr.slot.None?)
      && (!Frees(act) && !act.Spawn? ==> w'.d.mgr.slot == w.d.mgr.slot)
      && w'.d.startLock == (if Returns(act) then None else w.d.startLock)
  {
    hide Arises, Instr, After, Halted, DaemonMoves, Served, Returns, Frees;
    var m := Daemon(Advance(id, c), false);
    var (act, next) := Instr(pc, w.d.infos[id].auto, c);
    CanAdvance(w, id, c);
    w' := DaemonMoves(w, Advance(id, c), false);
    TaskMoves(w, id, c);
    PerformMovesSlot(w.d, id, act, next);
    PerformMovesFile(w.d, id, act, next);
    MakesDaemon(w, Advance(id, c));
    ArisesStep(w, m);
  }

  lemma CanAdvance(w: World, id: SessionId, c: Choice)
    requires id in w.d.pcs && id in w.d.infos && id in w.d.reasons && !Halted(w.d.pcs[id])
    requires w.d.pcs[id].Listening? ==> c != Proceed
    ensures Possible(w, Daemon(Advance(id, c), false))
  {
  }

  lemma MakesDaemon(w: World, e: Event)
    requires Possible(w, Daemon(e, false))
    ensures Make(w, Daemon(e, false)) == DaemonMoves(w, e, false)
  {
  }

  // The recorder starts.
  lemma Started(w: World, id: SessionId) returns (w': World)
    requires At(w, id, Reserved)
    ensures At(w', id, RecorderUp) && OnlyTask(w, id, w') && w'.own == w.own && w'.faults == w.faults
    ensures w'.d.active == w.d.active
  {
    hide At, Frees;
    w' := Advanced(w, id, Reserved, Proceed);
    w' := Advanced(w', id, StartingSent, Proceed);
  }

  // Its file is written or not.
  lemma Filed(w: World, id: SessionId, written: bool) returns (w': World)
    requires At(w, id, RecorderUp)
    ensures At(w', id, FileWritten) && OnlyTask(w, id, w') && w'.own == w.own
    ensures w'.faults == if written then w.faults else w.faults + {WriteFault}
    ensures if written then FileNames(w'.d, id) else w'.d.active == w.d.active
  {
    assert id in w.d.infos;
    hide At, Frees;
    w' := Advanced(w, id, RecorderUp, if written then Proceed else Fail);
  }

  // The session is announced.
  lemma Announced(w: World, id: SessionId, written: bool) returns (w': World)
    requires At(w, id, RecorderUp)
    ensures At(w', id, RecordingSent) && OnlyTask(w, id, w') && w'.own == w.own
    ensures w'.faults == if written then w.faults else w.faults + {WriteFault}
    ensures if written then FileNames(w'.d, id) else w'.d.active == w.d.active
  {
    hide At, Frees;
    w' := Filed(w, id, written);
    w' := Advanced(w', id, FileWritten, Proceed);
  }

  // The call returns and the lifecycle runs until its recorder is drained.
  lemma Recorded(w: World, id: SessionId) returns (w': World)
    requires At(w, id, RecordingSent)
    ensures At(w', id, Draining) && OnlyTask(w, id, w') && w'.d.startLock.None?
    ensures w'.own == if w.own == Holding(id) then Answered(Began(id)) else w.own
    ensures w'.faults == w.faults && w'.d.active == w.d.active
  {
    hide At, Frees;
    w' := Advanced(w, id, RecordingSent, Proceed);
    w' := Advanced(w', id, Listening, Fail);
  }

  // The recording is drained and saved.
  lemma Saved(w: World, id: SessionId) returns (w': World)
    requires At(w, id, Draining)
    ensures At(w', id, LastWritten(true)) && OnlyTask(w, id, w') && w'.d.startLock == w.d.startLock
    ensures w'.own == w.own && w'.faults == w.faults && w'.d.active == w.d.active
  {
    hide At, Frees;
    w' := Advanced(w, id, Draining, Proceed);
    w' := Advanced(w', id, DrainedOk, Proceed);
    w' := Advanced(w', id, StoppingSent, Proceed);
  }

  // It is announced, and the slot is free while the session is transcribed.
  lemma Transcribed(w: World, id: SessionId) returns (w': World)
    requires At(w, id, LastWritten(true)) && w.d.infos[id].auto && w.d.startLock.None?
    ensures At(w', id, JobSubmitted) && OnlyTask(w, id, w') && w'.d.startLock.None? && w'.d.mgr.slot.None?
    ensures w'.own == w.own && w'.faults == w.faults && w'.d.active == w.d.active
  {
    hide At;
    w' := Advanced(w, id, LastWritten(true), Proceed);
    w' := Advanced(w', id, CompleteSent(true), Proceed);
    w' := Advanced(w', id, Released(true), Proceed);
  }

  // From its reservation until it is being transcribed.
  lemma RunsToTranscription(w: World, id: SessionId, written: bool) returns (w': World)
    requires At(w, id, Reserved) && w.d.infos[id].auto
    ensures At(w', id, JobSubmitted) && OnlyTask(w, id, w') && w'.d.startLock.None? && w'.d.mgr.slot.None?
    ensures w'.own == if w.own == Holding(id) then Answered(Began(id)) else w.own
    ensures w'.faults == if written then w.faults else w.faults + {WriteFault}
    ensures !written ==> w'.d.active == w.d.active
  {
    hide At;
    w' := Started(w, id);
    w' := Announced(w', id, written);
    w' := Recorded(w', id);
    w' := Saved(w', id);
    w' := Transcribed(w', id);
  }

  // The client has its answer, or gives up on it.
  lemma Resumed(w: World, m: Move) returns (w': World)
    requires Arises(w) && w.phase.StartPending?
    requires (m == Abort && w.own.Queued?) || (m == StartReturns && w.own.Answered?)
    ensures Arises(w') && w'.phase.Ready? && w'.d == w.d && w'.overlapped == w.overlapped
    ensures w'.faults == if m == Abort then w.faults + {AbandonFault} else w.faults
  {
    hide Arises;
    ArisesStep(w, m);
    w' := Make(w, m);
  }

  // One press, up to the queued start call; `ok` if the read of the file succeeds.
  lemma Pressed(w: World, ok: bool) returns (w': World)
    requires Arises(w) && w.phase.Ready? && w.d.mgr.slot.None? && (ok ==> !Readable(w.d.active))
    ensures Arises(w') && w'.phase.StartPending? && w'.own.Queued? && w'.d.waiting == w.d.waiting + 1
    ensures w'.d.pcs == w.d.pcs && w'.d.infos == w.d.infos && w'.d.mgr.slot == w.d.mgr.slot
    ensures w'.d.active == w.d.active && w'.d.startLock == w.d.startLock && w'.d.reasons == w.d.reasons
    ensures w'.faults == (if ok then w.faults else w.faults + {ReadFault}) && w'.overlapped == w.overlapped
  {
    hide Arises, Readable;
    ArisesStep(w, Press);
    w' := Make(w, Press);
    ArisesStep(w', Status);
    w' := Make(w', Status);
    ArisesStep(w', CheckFile(ok));
    w' := Make(w', CheckFile(ok));
    ArisesStep(w', Profile("p"));
    w' := Make(w', Profile("p"));
    ArisesStep(w', SendStart);
    w' := StartSent(w');
  }

  // A queued call, the client's or an abandoned one, reserves the free slot for `id`.
  lemma Admitted(w: World, id: SessionId, mine: bool) returns (w': World)
    requires Arises(w) && w.d.mgr.slot.None? && w.d.startLock.None? && id !in w.d.infos && id != ""
    requires if mine then w.own.Queued? else w.d.waiting > OwnQueued(w.own)
    ensures At(w', id, Reserved) && w'.d.pcs == w.d.pcs[id := Reserved] && w'.d.infos[id].auto
    ensures w'.d.infos.Keys == w.d.infos.Keys + {id}
    ensures w'.d.waiting == w.d.waiting - 1 && w'.phase == w.phase && w'.d.active == w.d.active
    ensures w'.own == if mine then Holding(id) else w.own
    ensures w'.faults == w.faults && w'.overlapped == (w.overlapped || SomeOpen(w.d))
  {
    hide Arises, OutputPath, SomeOpen;
    CallsAreCounted(w);
    var m := Daemon(Admit(id, "p", true), mine);
    ArisesStep(w, m);
    w' := Make(w, m);
  }

  lemma CallsAreCounted(w: World)
    requires Arises(w)
    ensures w.d.mgr.inflight >= w.d.waiting && OwnQueued(w.own) <= w.d.waiting
    ensures w.d.pcs.Keys == w.d.infos.Keys && w.d.pcs.Keys == w.d.reasons.Keys
  {
    hide Arises, Apart, FaultsKept, UnwrittenPast;
    ArisesIsInv(w);
    hide SlotOwned, HookOwned, TasksRegistered, StopsPrecise, WordsKept, LogOwned, PathsOwned, OutputPath, InStart;
  }

  lemma Booted() returns (w: World)
    ensures Arises(w) && w == Boot(None, None)
  {
    w := Boot(None, None);
    assert Trail(w, [], w);
  }

  // With the first session being transcribed, a second one reserves the slot.
  lemma SecondOverlaps(w: World, id: SessionId) returns (w': World)
    requires At(w, id, JobSubmitted) && w.d.mgr.slot.None? && w.d.startLock.None? && w.own.Queued?
    requires "bb" !in w.d.infos
    ensures Arises(w') && w'.overlapped && w'.faults == w.faults
  {
    hide Arises;
    assert SomeOpen(w.d) by { assert Open(w.d.pcs[id]); }
    w' := Admitted(w, "bb", true);
  }

  // The first press, with no session there yet.
  lemma FirstBegins() returns (w: World)
    ensures At(w, "a", Reserved) && w.d.infos["a"].auto && w.d.infos.Keys == {"a"} && w.phase.StartPending?
    ensures w.own == Holding("a") && w.faults == {} && !w.overlapped && w.d.active.None?
  {
    hide Arises;
    w := Booted();
    w := Pressed(w, true);
    w := Admitted(w, "a", true);
  }

  // The daemon fails to write the file, or the client to read it: the next press starts a second session
  // while the first is being transcribed.
  lemma FileFaultOverlaps(written: bool) returns (w: World)
    ensures Arises(w) && w.overlapped && w.faults == {if written then ReadFault else WriteFault}
  {
    w := FirstBegins();
    hide Arises;
    w := RunsToTranscription(w, "a", written);
    w := Resumed(w, StartReturns);
    w := Pressed(w, !written);
    w := SecondOverlaps(w, "a");
  }

  // The client gives up on a start call and presses again: the abandoned call starts the first session after
  // the check, and the client's own waits beside it.
  lemma AbandonedCallWaits() returns (w: World)
    ensures At(w, "a", JobSubmitted) && w.d.mgr.slot.None? && w.d.startLock.None? && w.own.Queued?
    ensures w.faults == {AbandonFault} && w.d.infos.Keys == {"a"} && w.phase.StartPending?
  {
    hide Arises;
    w := Booted();
    w := Pressed(w, true);
    w := Resumed(w, Abort);
    w := Pressed(w, true);
    w := Admitted(w, "a", false);
    w := RunsToTranscription(w, "a", true);
  }

  // The client's own call then starts the second session, although every write and read succeeds.
  lemma AbandonedCallOverlaps() returns (w: World)
    ensures Arises(w) && w.overlapped && w.faults == {AbandonFault}
  {
    hide Arises;
    w := AbandonedCallWaits();
    w := SecondOverlaps(w, "a");
  }

  // The transcription succeeds and is saved.
  lemma Delivered(w: World, id: SessionId) returns (w': World)
    requires At(w, id, JobSubmitted)
    ensures At(w', id, TranscriptSaved) && OnlyTask(w, id, w') && w'.own == w.own && w'.faults == w.faults
  {
    hide At, Frees;
    w' := Advanced(w, id, JobSubmitted, Proceed);
    w' := Advanced(w', id, TranscriptReady, Proceed);
  }

  // The session says its terminal state and removes the file.
  lemma Ended(w: World, id: SessionId) returns (w': World)
    requires At(w, id, Closing(WithTranscript))
    ensures At(w', id, Finished(WithTranscript)) && OnlyTask(w, id, w')
    ensures w'.d.active.None? && w'.own == w.own && w'.faults == w.faults
  {
    hide At, Frees;
    w' := Advanced(w, id, Closing(WithTranscript), Proceed);
    w' := Advanced(w', id, Closed(WithTranscript), Proceed);
  }

  // The recorder of `id` starts, its file is written, its call returns and it records.
  lemma Records(w: World, id: SessionId) returns (w': World)
    requires At(w, id, Reserved) && w.own == Holding(id)
    ensures At(w', id, Listening) && OnlyTask(w, id, w') && FileNames(w'.d, id)
    ensures w'.own == Answered(Began(id)) && w'.faults == w.faults
  {
    hide At, Frees;
    w' := Started(w, id);
    w' := Announced(w', id, true);
    w' := Advanced(w', id, RecordingSent, Proceed);
  }

  // From its transcription to its end.
  lemma RunsToEnd(w: World, id: SessionId) returns (w': World)
    requires At(w, id, JobSubmitted)
    ensures At(w', id, Finished(WithTranscript)) && OnlyTask(w, id, w')
    ensures w'.d.active.None? && w'.own == w.own && w'.faults == w.faults
  {
    hide At, Frees;
    w' := Delivered(w, id);
    w' := Advanced(w', id, TranscriptSaved, Proceed);
    w' := Ended(w', id);
  }

  // The second session records beside the first, and the file names it.
  lemma RecordsBeside() returns (w: World)
    ensures At(w, "a", JobSubmitted) && At(w, "bb", Listening) && FileNames(w.d, "bb")
    ensures w.faults == {AbandonFault} && w.phase.StartPending? && w.own.Answered?
  {
    hide Arises;
    w := AbandonedCallWaits();
    w := Admitted(w, "bb", true);
    w := Records(w, "bb");
    CallsAreCounted(w);
  }

  // Every write has succeeded, the file named the second session, and now that the first has ended the second
  // records with no file.
  lemma RecordingLosesItsFile() returns (before: World, w: World)
    ensures At(before, "bb", Listening) && FileNames(before.d, "bb")
    ensures At(w, "bb", Listening) && w.d.active.None? && w.phase.Ready?
    ensures w.faults == {AbandonFault}
  {
    hide Arises;
    before := RecordsBeside();
    w := RunsToEnd(before, "a");
    CallsAreCounted(w);
    w := Resumed(w, StartReturns);
  }

  lemma {:induction false} SomeRunOverlaps(allowed: set<Fault>) returns (w: World)
    requires allowed != {}
    ensures Arises(w) && w.overlapped && w.faults <= allowed
  {
    hide Arises;
    if WriteFault in allowed {
      w := FileFaultOverlaps(false);
    } else if ReadFault in allowed {
      w := FileFaultOverlaps(true);
    } else {
      var f :| f in allowed;
      assert f == AbandonFault;
      w := AbandonedCallOverlaps();
    }
  }

  // The hypothesis of the no-overlap result is exact: allowed to go wrong in some of the three ways, some run
  // overlaps if and only if at least one of them is allowed.
  lemma OverlapNeedsAFault(allowed: set<Fault>)
    ensures (exists w :: Arises(w) && w.overlapped && w.faults <= allowed) <==> allowed != {}
  {
    hide Arises;
    if allowed != {} {
      var _ := SomeRunOverlaps(allowed);
    } else {
      forall w | Arises(w) && w.faults <= allowed
        ensures !w.overlapped
      {
        NoFaultsNoOverlap(w);
      }
    }
  }
}
