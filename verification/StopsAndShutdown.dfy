/**
 Stop requests reach exactly the recorder they name, although the hook is called
 after the lock is dropped; shutdown takes every lifecycle task there is; and what it
 waits for after that.
 */
module StopsAndShutdown {
  import opened Wrappers
  import opened SessionManagers
  import opened Protocol
  import opened ProtocolProofs

  // The three answers of `try_stop`, exactly: the session owns the slot and its lifecycle is spawned;
  // it owns the slot but has no lifecycle, for now or for good; it does not own the slot.
  lemma StopAnswers(d: State, asked: SessionId)
    requires Reachable(d)
    ensures d.mgr.StopDecision(asked) == Stopped
       <==> asked in d.pcs && HoldsSlot(d.pcs[asked]) && Live(d.pcs[asked])
    ensures d.mgr.StopDecision(asked) == NotReady
       <==> asked in d.pcs && HoldsSlot(d.pcs[asked]) && !Live(d.pcs[asked])
  {
    ReachableIsInv(d);
    hide HoldsSlot, Live;
  }

  // A stop call aims at no recorder but the one it names.
  lemma StopAimsAtItsSession(d: State, asked: SessionId)
    requires Reachable(d) && Enabled(d, StopCall(asked))
    ensures
      var d' := Do(d, StopCall(asked));
      && d'.reasons == d.reasons
      && (d.mgr.StopDecision(asked) == Stopped ==>
            d'.fires == d.fires + multiset{Fire(asked, asked)} && d'.replies == d.replies)
      && (d.mgr.StopDecision(asked) != Stopped ==>
            d'.fires == d.fires && d'.replies == d.replies + {Reply(asked, d.mgr.StopDecision(asked))})
  {
    ReachableIsInv(d);
    if d.mgr.StopDecision(asked) == Stopped {
      HookNamesOwner(d);
    }
  }

  // Whoever owns the slot by the time the hook is called, only the recorder asked for hears it.
  lemma HookReachesItsSession(d: State, fire: Fire)
    requires Reachable(d) && Enabled(d, FireHook(fire))
    ensures
      var d' := Do(d, FireHook(fire));
      && d'.reasons == d.reasons[fire.asked := UserRequested]
      && Reply(fire.asked, Stopped) in d'.replies
  {
    ReachableIsInv(d);
  }

  // Over whole runs: a `Stopped` answer means the session's own recorder has been told to stop, and a
  // recorder told to stop by a user was named by an answered call or was the one shutdown drained.
  lemma StopPrecision(d: State, s: SessionId)
    requires Reachable(d)
    ensures Reply(s, Stopped) in d.replies ==> s in d.reasons && d.reasons[s] != Running
    ensures s in d.reasons && d.reasons[s] == UserRequested ==>
              Reply(s, Stopped) in d.replies || s in d.drainAsked
  {
    ReachableIsInv(d);
    hide Domains, SlotOwned, HookOwned, GuardsCounted, TasksRegistered, WordsKept, LogOwned, PathsOwned;
  }

  // ---- Shutdown ---------------------------------------------------------------

  /** Every session that can still emit a signal is in shutdown's hands. */
  ghost predicate AllHandedOver(d: State) {
    forall s | s in d.pcs && !Halted(d.pcs[s]) :: s in d.taken
  }

  lemma ShutdownStep(d: State)
    ensures
      var d' := Do(d, ShutdownTakes);
      && d'.pcs == d.pcs && d'.waiting == d.waiting
      && (forall s :: s in d'.taken <==> s in d.taken || s in d.mgr.tasks)
      && (d.mgr.ActiveHook().Some? ==> d'.reasons == d.reasons[d.mgr.ActiveHook().value := UserRequested])
  {
  }

  // Taking the handles misses a session exactly when a call is inside the start lock; that session is
  // then the only one missed.
  lemma ShutdownMissesOnlyTheStarter(d: State)
    requires Reachable(d)
    ensures
      var d' := Do(d, ShutdownTakes);
      && (AllHandedOver(d') <==> d.startLock.None?)
      && (forall s | s in d'.pcs && !Halted(d'.pcs[s]) && s !in d'.taken :: d.startLock == Some(s))
  {
    ReachableIsInv(d);
    ShutdownStep(d);
    StarterIsMissed(d);
    hide Do, InStart, HoldsSlot, Halted, Inv, Reachable;
  }

  lemma StarterIsMissed(d: State)
    requires Inv(d)
    ensures forall s | s in d.pcs && !Halted(d.pcs[s]) :: s in d.taken || s in d.mgr.tasks || d.startLock == Some(s)
    ensures d.startLock.Some? ==>
              var s := d.startLock.value;
              s in d.pcs && !Halted(d.pcs[s]) && s !in d.taken && s !in d.mgr.tasks
  {
    hide Domains, SlotOwned, HookOwned, StopsPrecise, WordsKept, LogOwned, PathsOwned;
    assert forall s | s in d.pcs :: Live(d.pcs[s]) || InStart(d.pcs[s]) || Halted(d.pcs[s]);
    assert forall s | s in d.pcs && InStart(d.pcs[s]) :: !Halted(d.pcs[s]);
  }

  /** The owner of the slot, unless it was leaked, has been told to stop. */
  ghost predicate OwnerToldToStop(d: State) {
    forall s | s in d.pcs && HoldsSlot(d.pcs[s]) && !d.pcs[s].Leaked? ::
      s in d.reasons && d.reasons[s] == UserRequested
  }

  lemma OwnerHasHook(d: State, s: SessionId)
    requires SlotOwned(d) && HookOwned(d) && GuardsCounted(d) && d.startLock.None?
    requires s in d.pcs && HoldsSlot(d.pcs[s]) && !d.pcs[s].Leaked?
    ensures d.mgr.ActiveHook() == Some(s)
  {
    assert !InStart(d.pcs[s]);
    assert Live(d.pcs[s]);
    hide HoldsSlot, InStart, Live;
  }

  // The drain loop leaves on a zero counter: no call is queued, every unfinished lifecycle is handed
  // over, and a recording still running has been told to stop.
  lemma ShutdownIsComplete(d: State)
    requires Reachable(d) && d.mgr.inflight == 0
    ensures var d' := Do(d, ShutdownTakes); d'.waiting == 0 && AllHandedOver(d') && OwnerToldToStop(d')
  {
    ReachableIsInv(d);
    ShutdownMissesOnlyTheStarter(d);
    ShutdownStep(d);
    assert d.waiting == 0 && d.startLock.None?;
    forall s | s in d.pcs && HoldsSlot(d.pcs[s]) && !d.pcs[s].Leaked?
      ensures d.mgr.ActiveHook() == Some(s)
    {
      OwnerHasHook(d, s);
    }
    hide Do, Inv, Reachable, HoldsSlot, AllHandedOver;
  }

  // ---- While shutdown awaits the handles it took ------------------------------------------------

  /** Every handle shutdown took has been joined. */
  ghost predicate TakenFinished(d: State, d': State) {
    forall t | t in d.taken && t in d'.pcs :: Halted(d'.pcs[t])
  }

  /** A session that began after `d`. */
  ghost predicate Latecomer(d: State, d': State, s: SessionId) {
    s in d'.pcs && s !in d.pcs
  }

  lemma HaltedStays(d: State, e: Event, s: SessionId)
    requires Enabled(d, e) && s in d.pcs && Halted(d.pcs[s])
    ensures s in Do(d, e).pcs && Halted(Do(d, e).pcs[s])
  {
    hide HasRecorder, Instr;
    if e.Advance? {
      PerformMovesSlot(d, e.id, Instr(d.pcs[e.id], d.infos[e.id].auto, e.choice).0,
                       Instr(d.pcs[e.id], d.infos[e.id].auto, e.choice).1);
      hide After;
    }
  }

  lemma {:induction false} HaltedStaysOn(d: State, es: seq<Event>, d': State, s: SessionId)
    requires Path(d, es, d') && s in d.pcs && Halted(d.pcs[s])
    ensures s in d'.pcs && Halted(d'.pcs[s])
    decreases |es|
  {
    hide Do, Halted, Enabled;
    if es != [] {
      HaltedStays(d, es[0], s);
      HaltedStaysOn(Do(d, es[0]), es[1..], d', s);
    }
  }

  // Once a drained shutdown has joined the handles it took, every session ever reserved has come to its end
  // if and only if those have that began after the take: the bus still serves calls until the name is released.
  lemma OnlyLatecomersAreLeft(d: State, es: seq<Event>, d': State)
    requires Reachable(d) && d.mgr.inflight == 0
    requires Path(Do(d, ShutdownTakes), es, d') && TakenFinished(Do(d, ShutdownTakes), d')
    ensures (forall s | s in d'.pcs :: Halted(d'.pcs[s]))
       <==> forall s | Latecomer(Do(d, ShutdownTakes), d', s) :: Halted(d'.pcs[s])
  {
    hide Reachable, Do, Path, Halted;
    ShutdownIsComplete(d);
    var d1 := Do(d, ShutdownTakes);
    forall s | s in d1.pcs && Halted(d1.pcs[s])
      ensures s in d'.pcs && Halted(d'.pcs[s])
    {
      HaltedStaysOn(d1, es, d', s);
    }
  }

  lemma {:induction false} NobodyBegins(d: State, es: seq<Event>, d': State)
    requires Path(d, es, d') && forall e | e in es :: !e.Admit?
    ensures d'.pcs.Keys == d.pcs.Keys
    decreases |es|
  {
    hide Instr;
    if es != [] {
      NobodyAdmitted(d, es[0]);
      assert forall e | e in es[1..] :: e in es;
      hide Do, Enabled;
      NobodyBegins(Do(d, es[0]), es[1..], d');
    }
  }

  lemma NobodyAdmitted(d: State, e: Event)
    requires Enabled(d, e) && !e.Admit?
    ensures Do(d, e).pcs.Keys == d.pcs.Keys
  {
    hide HasRecorder, Instr;
    if e.Advance? {
      PerformMovesSlot(d, e.id, Instr(d.pcs[e.id], d.infos[e.id].auto, e.choice).0,
                       Instr(d.pcs[e.id], d.infos[e.id].auto, e.choice).1);
      hide After;
    }
  }

  // With no call admitted after the take, a clean drain has left every session ever reserved at its end.
  lemma QuietDrainHaltsAll(d: State, es: seq<Event>, d': State)
    requires Reachable(d) && d.mgr.inflight == 0 && forall e | e in es :: !e.Admit?
    requires Path(Do(d, ShutdownTakes), es, d') && TakenFinished(Do(d, ShutdownTakes), d')
    ensures forall s | s in d'.pcs :: Halted(d'.pcs[s])
  {
    hide Reachable, Do, Path, Halted, TakenFinished;
    NobodyBegins(Do(d, ShutdownTakes), es, d');
    OnlyLatecomersAreLeft(d, es, d');
  }

  // A call admitted after the take is not waited for: a clean drain that leaves a session at work.
  lemma LatecomerIsLeft() returns (d: State, es: seq<Event>, d': State, s: SessionId)
    ensures Reachable(d) && d.mgr.inflight == 0
    ensures Path(Do(d, ShutdownTakes), es, d') && TakenFinished(Do(d, ShutdownTakes), d')
    ensures s in d'.pcs && !Halted(d'.pcs[s])
  {
    d := Init(None, None);
    assert Path(d, [], d) && Leads(d, d);
    assert Reachable(d);
    s := "a";
    var d1 := Do(d, ShutdownTakes);
    var d2 := Do(d1, Call);
    var e := Admit(s, "p", true);
    es, d' := [Call, e], Do(d2, e);
    assert es[1..] == [e] && [e][1..] == [];
    assert Path(d2, [e], d') by { assert Path(d', [], d'); }
  }
}
