/**
 What an observer of the bus may rely on: the order of one session's signals, and
 how the signals of different sessions interleave. The slot is released before
 transcription starts, so sessions overlap; their recordings never do.
 */
module SignalOrder {
  import opened Wrappers
  import opened SessionManagers
  import opened Protocol
  import opened ProtocolProofs

  // ---- The log and its projections --------------------------------------------

  // The projection places each entry after exactly what its session had logged before it.
  lemma {:induction false} ProjectAt(log: seq<Entry>, m: nat)
    requires m < |log|
    ensures var s := log[m].session; var before := Project(log[..m], s);
            before < Project(log, s) && Project(log, s)[|before|] == log[m].letter
  {
    var init := log[..|log| - 1];
    if m < |log| - 1 {
      assert init[..m] == log[..m];
      ProjectAt(init, m);
    }
  }

  function Rank(l: Letter): nat {
    match l
    case Reserve => 0
    case Starting => 1
    case Recording => 2
    case Stopping => 3
    case RecordingComplete => 4
    case Release => 5
    case TranscriptComplete => 6
    case Idle => 7
    case Failed => 7
  }

  ghost predicate Ascending(w: seq<Letter>) {
    forall a, b | 0 <= a < b < |w| :: Rank(w[a]) < Rank(w[b])
  }

  lemma EndingsAscend(how: Ending)
    ensures Ascending(BeforeTerminal(how) + [Terminal(how)])
  {
    match how
    case _ =>
  }

  /** A completion of the session's word, whatever it does next. */
  function Completion(pc: Pc): Ending {
    match pc
    case LastWritten(false) => RecorderError
    case DrainedErr => RecorderError
    case CompleteSent(false) => RecorderError
    case Released(false) => RecorderError
    case Closing(how) => how
    case Closed(how) => how
    case Finished(how) => how
    case _ => WithTranscript
  }

  predicate StartGaveUp(pc: Pc) {
    pc.StartFailed? || pc.StartFailedSent? || pc.Rejected? || pc.Silent?
  }

  lemma WordCompletes(pc: Pc)
    requires !StartGaveUp(pc)
    ensures Word(pc) <= BeforeTerminal(Completion(pc)) + [Terminal(Completion(pc))]
  {
  }

  lemma GaveUpAscends(pc: Pc)
    requires StartGaveUp(pc)
    ensures Ascending(Word(pc))
  {
  }

  lemma WordsAscend(pc: Pc)
    ensures Ascending(Word(pc))
  {
    if StartGaveUp(pc) {
      GaveUpAscends(pc);
    } else {
      WordCompletes(pc);
      EndingsAscend(Completion(pc));
      hide Word, BeforeTerminal, Terminal, Rank, StartGaveUp;
    }
  }

  // Two entries of one session appear in its projection in log order.
  lemma {:induction false} ProjectInOrder(log: seq<Entry>, i: nat, j: nat) returns (a: nat, b: nat)
    requires i < j < |log| && log[i].session == log[j].session
    ensures var w := Project(log, log[i].session); a < b < |w| && w[a] == log[i].letter && w[b] == log[j].letter
  {
    var s := log[i].session;
    a, b := |Project(log[..i], s)|, |Project(log[..j], s)|;
    ProjectAt(log, i);
    ProjectAt(log, j);
    assert log[..j][..i] == log[..i];
    ProjectAt(log[..j], i);
  }

  lemma EntriesInOrder(d: State, i: nat, j: nat)
    requires WordsKept(d) && i < j < |d.log| && d.log[i].session == d.log[j].session
    ensures Rank(d.log[i].letter) < Rank(d.log[j].letter)
  {
    var a, b := ProjectInOrder(d.log, i, j);
    WordsAscend(d.pcs[d.log[i].session]);
    hide Word, Rank;
  }

  // In every run a session's entries come in this fixed order, each at most once: one reserve, one
  // release, one terminal state, and "idle" only after RecordingComplete.
  lemma SignalsInOrder(d: State, i: nat, j: nat)
    requires Reachable(d) && i < j < |d.log| && d.log[i].session == d.log[j].session
    ensures Rank(d.log[i].letter) < Rank(d.log[j].letter)
  {
    ReachableIsInv(d);
    hide Rank, Reachable;
    EntriesInOrder(d, i, j);
  }

  // ---- The language of one session ----------------------------------------------

  function Signals(w: seq<Letter>): seq<Letter> {
    if w == [] then []
    else (if w[0] == Reserve || w[0] == Release then [] else [w[0]]) + Signals(w[1..])
  }

  const TRANSCRIBED := [Starting, Recording, Stopping, RecordingComplete, TranscriptComplete, Idle]
  const RECORDED := [Starting, Recording, Stopping, RecordingComplete, Idle]
  const TRANSCRIPTION_FAILED := [Starting, Recording, Stopping, RecordingComplete, Failed]
  const RECORDING_FAILED := [Starting, Recording, RecordingComplete, Failed]
  const DRAIN_PANICKED := [Starting, Recording, Failed]
  const START_FAILED := [Starting, Failed]

  /** The six words a session can say in full. */
  ghost predicate FullWord(w: seq<Letter>) {
    || w == TRANSCRIBED || w == RECORDED || w == TRANSCRIPTION_FAILED
    || w == RECORDING_FAILED || w == DRAIN_PANICKED || w == START_FAILED
  }

  function Ended(how: Ending): seq<Letter> {
    match how
    case WithTranscript => TRANSCRIBED
    case AudioOnly => RECORDED
    case JobFailed => TRANSCRIPTION_FAILED
    case RecorderError => RECORDING_FAILED
    case DrainPanic => DRAIN_PANICKED
  }

  lemma {:induction false} SignalsConcat(v: seq<Letter>, w: seq<Letter>)
    ensures Signals(v + w) == Signals(v) + Signals(w)
  {
    if v == [] {
      assert v + w == w;
    } else {
      assert (v + w)[1..] == v[1..] + w;
      SignalsConcat(v[1..], w);
    }
  }

  lemma {:induction false} SignalsOnly(w: seq<Letter>)
    requires Reserve !in w && Release !in w
    ensures Signals(w) == w
  {
    if w != [] {
      SignalsOnly(w[1..]);
      assert [w[0]] + w[1..] == w;
    }
  }

  // A whole session: reserve, what it says as owner, release, what it says after.
  lemma {:induction false} SlotMovesAreSilent(before: seq<Letter>, after: seq<Letter>)
    requires Reserve !in before && Release !in before && Reserve !in after && Release !in after
    ensures Signals([Reserve] + before + [Release] + after) == before + after
  {
    assert Signals([Reserve]) == [] && Signals([Release]) == [];
    hide Signals;
    SignalsOnly(before);
    SignalsOnly(after);
    var owned := [Reserve] + before;
    SignalsConcat([Reserve], before);
    assert Signals(owned) == before by { assert [] + before == before; }
    SignalsConcat(owned, [Release]);
    assert Signals(owned + [Release]) == before by { assert before + [] == before; }
    SignalsConcat(owned + [Release], after);
  }

  lemma EndingSaysFullWord(how: Ending)
    ensures Signals(BeforeTerminal(how) + [Terminal(how)]) == Ended(how)
  {
    var w := BeforeTerminal(how) + [Terminal(how)];
    var before, after := EndingHalves(how);
    assert w == [Reserve] + before + [Release] + after;
    SlotMovesAreSilent(before, after);
  }

  lemma EndingHalves(how: Ending) returns (before: seq<Letter>, after: seq<Letter>)
    ensures BeforeTerminal(how) + [Terminal(how)] == [Reserve] + before + [Release] + after
    ensures before + after == Ended(how)
    ensures Reserve !in before && Release !in before && Reserve !in after && Release !in after
  {
    after := if how == WithTranscript then [TranscriptComplete, Idle] else [Terminal(how)];
    before := Ended(how)[..|Ended(how)| - |after|];
  }

  // Projected to one session, every run is a prefix of one of the six words, and a session that has
  // ended, other than silently or leaked, has said its word in full.
  lemma SignalLanguage(d: State, s: SessionId) returns (full: seq<Letter>)
    requires Reachable(d)
    ensures FullWord(full) && Signals(Project(d.log, s)) <= full
    ensures s in d.pcs && (d.pcs[s].Finished? || d.pcs[s].Rejected?) ==> Signals(Project(d.log, s)) == full
    ensures TranscriptComplete in Project(d.log, s) ==> full == TRANSCRIBED
  {
    ReachableIsInv(d);
    if s in d.pcs {
      full := WordLanguage(d.pcs[s]);
    } else {
      full := START_FAILED;
    }
  }

  lemma {:induction false} WordLanguage(pc: Pc) returns (full: seq<Letter>)
    ensures FullWord(full) && Signals(Word(pc)) <= full
    ensures pc.Finished? || pc.Rejected? ==> Signals(Word(pc)) == full
    ensures TranscriptComplete in Word(pc) ==> full == TRANSCRIBED
  {
    if StartGaveUp(pc) {
      full := START_FAILED;
      StartWordsPrefix(pc);
      hide Word, Signals;
    } else {
      hide Word, BeforeTerminal, Terminal, FullWord, Ended, Completion, Signals;
      var how := Completion(pc);
      full := Ended(how);
      WordCompletes(pc);
      FinishedSaysAll(pc);
      EndingSaysFullWord(how);
      OnlyTranscribedSaysIt(how);
      EndedIsFull(how);
      SignalsOfPrefix(Word(pc), BeforeTerminal(how) + [Terminal(how)]);
    }
  }

  lemma FinishedSaysAll(pc: Pc)
    ensures pc.Finished? ==> Word(pc) == BeforeTerminal(Completion(pc)) + [Terminal(Completion(pc))]
  {
  }

  lemma {:induction false} SignalsOfPrefix(w: seq<Letter>, whole: seq<Letter>)
    requires w <= whole
    ensures Signals(w) <= Signals(whole)
    ensures forall l | l in w :: l in whole
  {
    SignalsConcat(w, whole[|w|..]);
    assert w + whole[|w|..] == whole;
    hide Signals;
    assert forall l | l in w :: l in whole;
  }

  lemma EndedIsFull(how: Ending)
    ensures FullWord(Ended(how))
    ensures how == WithTranscript ==> Ended(how) == TRANSCRIBED
  {
  }

  lemma OnlyTranscribedSaysIt(how: Ending)
    ensures TranscriptComplete in BeforeTerminal(how) + [Terminal(how)] <==> how == WithTranscript
  {
  }

  lemma StartWordsPrefix(pc: Pc)
    requires StartGaveUp(pc)
    ensures Signals(Word(pc)) <= START_FAILED
    ensures pc.Rejected? ==> Signals(Word(pc)) == START_FAILED
    ensures TranscriptComplete !in Word(pc)
  {
    var before := if pc.Silent? then [] else [Starting];
    var after := if pc.StartFailed? || pc.Silent? then [] else [Failed];
    assert Word(pc) == [Reserve] + before + [Release] + after;
    SlotMovesAreSilent(before, after);
  }

  // ---- Different sessions ------------------------------------------------------------

  // Owning the slot at `j` and not having reserved it since `i`, a session has owned it throughout.
  lemma {:induction false} OwnedThroughout(log: seq<Entry>, s: SessionId, i: nat, m: nat, j: nat)
    requires i <= m <= j <= |log| && Owner(log[..j]) == Some(s)
    requires forall k | i <= k < j :: log[k] != Entry(s, Reserve, log[k].path)
    ensures Owner(log[..m]) == Some(s)
    decreases j - m
  {
    if m < j {
      OwnedThroughout(log, s, i, m + 1, j);
      assert log[..m + 1][..m] == log[..m];
    }
  }

  lemma StartingRanksAboveReserve()
    ensures Rank(Reserve) < Rank(Starting)
  {
  }

  lemma InvOwnsLog(d: State)
    requires Inv(d)
    ensures WordsKept(d) && Disciplined(d.log)
  {
    hide Domains, SlotOwned, HookOwned, GuardsCounted, TasksRegistered, StopsPrecise, WordsKept, PathsOwned;
    hide Disciplined;
  }

  // Between a session's "starting" and its RecordingComplete no other session reserves the slot,
  // starts, records, stops, completes or releases. Only transcripts and terminal states interleave.
  lemma RecordingsAreExclusive(d: State, i: nat, k: nat, j: nat)
    requires Reachable(d) && i < k < j < |d.log|
    requires d.log[i].letter == Starting && d.log[j].letter == RecordingComplete
    requires d.log[i].session == d.log[j].session != d.log[k].session
    ensures d.log[k].letter == TranscriptComplete || d.log[k].letter == Idle || d.log[k].letter == Failed
  {
    hide Reachable, Inv, WordsKept, Rank;
    ReachableIsInv(d);
    InvOwnsLog(d);
    var s := d.log[i].session;
    forall m | i <= m < j
      ensures d.log[m] != Entry(s, Reserve, d.log[m].path)
    {
      if m > i && d.log[m].session == s {
        EntriesInOrder(d, i, m);
        StartingRanksAboveReserve();
      }
    }
    OwnedThroughout(d.log, s, i, k, j);
  }

  // The intervals from "starting" to RecordingComplete of two completed sessions are disjoint.
  lemma RecordingIntervalsDisjoint(d: State, i: nat, j: nat, i': nat, j': nat)
    requires Reachable(d) && i < j < |d.log| && i' < j' < |d.log|
    requires d.log[i].letter == d.log[i'].letter == Starting
    requires d.log[j].letter == d.log[j'].letter == RecordingComplete
    requires d.log[i].session == d.log[j].session && d.log[i'].session == d.log[j'].session
    requires d.log[i].session != d.log[i'].session
    ensures j < i' || j' < i
  {
    if i < i' < j {
      RecordingsAreExclusive(d, i, i', j);
    }
    if i' < i < j' {
      RecordingsAreExclusive(d, i', i, j');
    }
  }

  // ---- Slot ownership ---------------------------------------------------------------------

  // The slot names `s` exactly when the log has `s` reserving and not yet releasing it.
  lemma SlotFollowsLog(d: State, s: SessionId)
    requires Reachable(d)
    ensures (d.mgr.slot.Some? && d.mgr.slot.value.sessionId == s)
       <==> Reserve in Project(d.log, s) && Release !in Project(d.log, s)
  {
    ReachableIsInv(d);
    if s in d.pcs {
      HoldersHaveNotReleased(d.pcs[s]);
    }
  }

  lemma HoldersHaveNotReleased(pc: Pc)
    ensures Reserve in Word(pc)
    ensures Release in Word(pc) <==> !HoldsSlot(pc)
  {
    assert Word(pc)[0] == Reserve;
    if pc.CompleteSent? || pc.LastWritten? {
    } else if pc.Released? || pc.JobSubmitted? || pc.TranscriptReady? || pc.TranscriptSaved? {
      assert Word(pc)[|Word(pc)| - 1] == Release;
    } else if pc.Closing? || pc.Closed? || pc.Finished? {
      assert Release in BeforeTerminal(pc.how) by { EndingsRelease(pc.how); }
    } else if pc.Silent? || pc.StartFailed? || pc.StartFailedSent? || pc.Rejected? {
      assert Release in Word(pc);
    }
  }

  lemma EndingsRelease(how: Ending)
    ensures Release in BeforeTerminal(how)
  {
    match how
    case WithTranscript => assert BeforeTerminal(how)[5] == Release;
    case AudioOnly => assert BeforeTerminal(how)[5] == Release;
    case JobFailed => assert BeforeTerminal(how)[5] == Release;
    case RecorderError => assert BeforeTerminal(how)[4] == Release;
    case DrainPanic => assert BeforeTerminal(how)[3] == Release;
  }

  // `release()` takes no id, yet it always empties the caller's own slot; and `install_stop_hook()`
  // always installs into the caller's own session.
  lemma ReleaseIsOwn(d: State, id: SessionId, c: Choice)
    requires Reachable(d) && Enabled(d, Advance(id, c))
    ensures
      var act := Instr(d.pcs[id], d.infos[id].auto, c).0;
      var d' := Do(d, Advance(id, c));
      && (Frees(act) ==> d.mgr.slot.Some? && d.mgr.slot.value.sessionId == id && d'.mgr.slot == None)
      && (act.Spawn? ==> d.mgr.slot.Some? && d.mgr.slot.value.sessionId == id
                         && d'.mgr.slot == Some(d.mgr.slot.value.(stopHook := Some(id))))
  {
    ReachableIsInv(d);
    InstrSlotFacts(d.pcs[id], d.infos[id].auto, c);
    PerformMovesSlot(d, id, Instr(d.pcs[id], d.infos[id].auto, c).0, Instr(d.pcs[id], d.infos[id].auto, c).1);
    hide Instr, HoldsSlot, After, Perform;
  }
}
