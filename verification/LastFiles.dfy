/**
 The history of the last-session file in every run, overlapping sessions included: which
 save it holds, and what may have come between a session's save and the signal that
 announces it (`crates/zwhisperd/src/last_session.rs`).
 */
module LastFiles {
  import opened Wrappers
  import opened SessionManagers
  import opened Protocol
  import opened ProtocolProofs
  import opened NoOverlap
  import ActiveFiles
  import opened FilesBeforeSignals

  datatype Save = SavedAudio(session: SessionId) | SavedTranscript(session: SessionId)

  function SaveOf(d: State, e: Event): seq<Save> {
    if !Saves(d, e) then []
    else if d.pcs[e.id].TranscriptReady? then [SavedTranscript(e.id)]
    else [SavedAudio(e.id)]
  }

  /** The successful saves of a run, in order. */
  ghost function SavesOf(d: State, es: seq<Event>): seq<Save>
    decreases |es|
  {
    if es == [] || !Enabled(d, es[0]) then [] else SaveOf(d, es[0]) + SavesOf(Do(d, es[0]), es[1..])
  }

  /** Some run, over any state files, has come to `d` with these saves. */
  ghost predicate Ran(d: State, saves: seq<Save>) {
    exists active, last, es ::
      LastFileIsOwn(last) && Path(Init(active, last), es, d) && saves == SavesOf(Init(active, last), es)
  }

  /** What a save writes. */
  function FileOf(d: State, save: Save): LastFile
    requires save.session in d.infos
  {
    var audio := d.infos[save.session].output;
    if save.SavedAudio? then AudioOnlyFile(save.session, audio) else WithTranscriptFile(save.session, audio)
  }

  predicate PastTranscript(pc: Pc) {
    pc.TranscriptSaved? || pc.Closing? || pc.Closed? || pc.Finished?
  }

  predicate PastAudio(pc: Pc) {
    || PastTranscript(pc) || pc.LastWritten? || pc.CompleteSent? || pc.Released? || pc.JobSubmitted?
    || pc.TranscriptReady?
  }

  /** The session has moved past the save. */
  predicate Past(pc: Pc, save: Save) {
    if save.SavedAudio? then PastAudio(pc) else PastTranscript(pc)
  }

  // ---- One step --------------------------------------------------------------------------------

  lemma InstrSaves(pc: Pc, auto: bool, c: Choice)
    requires !Halted(pc)
    ensures
      var (act, next) := Instr(pc, auto, c);
      && (act == SaveAudio(true) <==> c == Proceed && Saving(pc) && !pc.TranscriptReady?)
      && (act == SaveTranscript(true) <==> c == Proceed && pc.TranscriptReady?)
      && (act.SaveAudio? ==> PastAudio(next)) && (act.SaveTranscript? ==> PastTranscript(next))
  {
  }

  lemma InstrGoesOn(pc: Pc, auto: bool, c: Choice)
    ensures PastAudio(pc) ==> PastAudio(Instr(pc, auto, c).1)
    ensures PastTranscript(pc) ==> PastTranscript(Instr(pc, auto, c).1)
  {
  }

  /** What a step leaves of the sessions there were. */
  ghost predicate Continues(d: State, d': State) {
    && (forall s | s in d.infos :: s in d'.infos && d'.infos[s] == d.infos[s])
    && (forall s | s in d.pcs ::
          && s in d'.pcs
          && (HoldsSlot(d'.pcs[s]) ==> HoldsSlot(d.pcs[s]))
          && (PastAudio(d.pcs[s]) ==> PastAudio(d'.pcs[s]))
          && (PastTranscript(d.pcs[s]) ==> PastTranscript(d'.pcs[s])))
  }

  /** The file and its writer after a save. */
  ghost predicate SavedNow(d': State, save: Save) {
    && save.session in d'.pcs && save.session in d'.infos && Past(d'.pcs[save.session], save)
    && d'.last == Some(FileOf(d', save))
  }

  lemma AdvanceSavesFile(d: State, id: SessionId, c: Choice)
    requires Enabled(d, Advance(id, c))
    ensures
      var d' := TaskAdvances(d, id, c);
      var save := SaveOf(d, Advance(id, c));
      Continues(d, d') && if save == [] then d'.last == d.last else SavedNow(d', save[0])
  {
    hide Instr, After, HoldsSlot, PastAudio, PastTranscript, AudioOnlyFile, WithTranscriptFile;
    var (act, next) := Instr(d.pcs[id], d.infos[id].auto, c);
    InstrSaves(d.pcs[id], d.infos[id].auto, c);
    InstrGoesOn(d.pcs[id], d.infos[id].auto, c);
    InstrSlotFacts(d.pcs[id], d.infos[id].auto, c);
    PerformMovesLast(d, id, act, next);
  }

  lemma OthersSaveNothing(d: State, e: Event)
    requires d.infos.Keys == d.pcs.Keys && Enabled(d, e) && !e.Advance?
    ensures Do(d, e).last == d.last && Continues(d, Do(d, e))
  {
    hide Do, Enabled, PastAudio, PastTranscript, HoldsSlot;
    OthersDoNotSave(d, e);
    ActiveFiles.OthersDoNotTouch(d, e);
  }

  lemma StepSaves(d: State, e: Event)
    requires d.infos.Keys == d.pcs.Keys && Enabled(d, e)
    ensures
      var d' := Do(d, e);
      var save := SaveOf(d, e);
      Continues(d, d') && if save == [] then d'.last == d.last else SavedNow(d', save[0])
  {
    hide TaskAdvances, Do, Enabled, Continues, SavedNow, Saving;
    if e.Advance? {
      ActiveFiles.AdvanceIsDone(d, e.id, e.choice);
      AdvanceSavesFile(d, e.id, e.choice);
    } else {
      OthersSaveNothing(d, e);
    }
  }

  // ---- The history -------------------------------------------------------------------------------

  ghost predicate LastSaveShows(d: State, saves: seq<Save>) {
    saves != [] ==> SavedNow(d, saves[|saves| - 1])
  }

  ghost predicate SaversMoved(d: State, saves: seq<Save>) {
    forall k | 0 <= k < |saves| ::
      saves[k].session in d.pcs && saves[k].session in d.infos && Past(d.pcs[saves[k].session], saves[k])
  }

  /** No save is made twice, none of a session's follows its transcript, and beside the slot's holder who has
      saved its recording only transcripts are saved. */
  ghost predicate SavesInOrder(d: State, saves: seq<Save>) {
    forall i, k | 0 <= i < k < |saves| ::
      && saves[k] != saves[i]
      && (saves[i].SavedTranscript? ==> saves[k].session != saves[i].session)
      && (saves[i].session in d.pcs && HoldsSlot(d.pcs[saves[i].session]) ==> saves[k].SavedTranscript?)
  }

  ghost predicate HistoryInv(d: State, saves: seq<Save>) {
    LastSaveShows(d, saves) && SaversMoved(d, saves) && SavesInOrder(d, saves)
  }

  lemma SaveKeepsMoved(d: State, saves: seq<Save>, e: Event)
    requires d.infos.Keys == d.pcs.Keys && Enabled(d, e) && SaversMoved(d, saves) && LastSaveShows(d, saves)
    ensures SaversMoved(Do(d, e), saves + SaveOf(d, e)) && LastSaveShows(Do(d, e), saves + SaveOf(d, e))
  {
    hide Do, Enabled, HoldsSlot, PastAudio, PastTranscript, AudioOnlyFile, WithTranscriptFile;
    StepSaves(d, e);
    hide SaveOf;
    if SaveOf(d, e) == [] {
      assert saves + SaveOf(d, e) == saves;
    }
  }

  // A save that has been made is not made again, and beside a holder past its own only transcripts are left.
  lemma NewSaveIsLast(d: State, e: Event, save: Save)
    requires SlotOwned(d) && save.session in d.pcs && Past(d.pcs[save.session], save) && Saves(d, e)
    ensures SaveOf(d, e) != [save]
    ensures save.SavedTranscript? ==> e.id != save.session
    ensures HoldsSlot(d.pcs[save.session]) ==> d.pcs[e.id].TranscriptReady?
  {
    assert !d.pcs[e.id].TranscriptReady? ==> HoldsSlot(d.pcs[e.id]);
  }

  lemma SaveKeepsOrder(d: State, saves: seq<Save>, e: Event)
    requires SlotOwned(d) && d.infos.Keys == d.pcs.Keys && Enabled(d, e)
    requires SaversMoved(d, saves) && SavesInOrder(d, saves)
    ensures SavesInOrder(Do(d, e), saves + SaveOf(d, e))
  {
    hide Do, Enabled, HoldsSlot, SlotOwned, Saves, Past, SavedNow, PastAudio, PastTranscript;
    StepSaves(d, e);
    var saves' := saves + SaveOf(d, e);
    forall i, k | 0 <= i < k < |saves'|
      ensures saves'[k] != saves'[i]
      ensures saves'[i].SavedTranscript? ==> saves'[k].session != saves'[i].session
      ensures saves'[i].session in Do(d, e).pcs && HoldsSlot(Do(d, e).pcs[saves'[i].session]) ==>
                saves'[k].SavedTranscript?
    {
      assert saves'[i] == saves[i];
      if k == |saves| {
        NewSaveIsLast(d, e, saves[i]);
      }
    }
  }

  lemma StepKeepsHistory(d: State, saves: seq<Save>, e: Event)
    requires Inv(d) && HistoryInv(d, saves) && Enabled(d, e)
    ensures HistoryInv(Do(d, e), saves + SaveOf(d, e))
  {
    hide Inv, Do, Enabled, LastSaveShows, SaversMoved, SavesInOrder, SlotOwned, SaveOf, GuardsCounted, WordsKept;
    InvParts(d);
    InvHasDomains(d);
    SaveKeepsMoved(d, saves, e);
    SaveKeepsOrder(d, saves, e);
  }

  lemma {:induction false} PathKeepsHistory(d: State, saves: seq<Save>, es: seq<Event>, d': State)
    requires Inv(d) && HistoryInv(d, saves) && Path(d, es, d')
    ensures Inv(d') && HistoryInv(d', saves + SavesOf(d, es))
    decreases |es|
  {
    hide Inv, Do, Enabled, HistoryInv, SaveOf;
    if es == [] {
      assert saves + SavesOf(d, es) == saves;
    } else {
      StepKeepsInv(d, es[0]);
      StepKeepsHistory(d, saves, es[0]);
      PathKeepsHistory(Do(d, es[0]), saves + SaveOf(d, es[0]), es[1..], d');
      assert saves + SaveOf(d, es[0]) + SavesOf(Do(d, es[0]), es[1..]) == saves + SavesOf(d, es);
    }
  }

  lemma NoHistory(d: State)
    ensures HistoryInv(d, [])
  {
  }

  lemma RanKeepsHistory(d: State, saves: seq<Save>)
    requires Ran(d, saves)
    ensures Inv(d) && HistoryInv(d, saves)
  {
    hide Inv, Path, SavesOf, HistoryInv, Init;
    var active, last, es :|
      LastFileIsOwn(last) && Path(Init(active, last), es, d) && saves == SavesOf(Init(active, last), es);
    InitHolds(active, last);
    NoHistory(Init(active, last));
    PathKeepsHistory(Init(active, last), [], es, d);
    assert [] + saves == saves;
  }

  lemma FilesDiffer(d: State, a: Save, b: Save)
    requires a.session in d.infos && b.session in d.infos && a != b
    ensures FileOf(d, a) != FileOf(d, b)
  {
    assert |TranscriptPath(a.session)| > 0;
  }

  lemma SpeakersHold(pc: Pc, auto: bool)
    ensures Instr(pc, auto, Proceed).0 == Say(RecordingComplete) ==> HoldsSlot(pc) && !PastTranscript(pc)
  {
  }

  // In every run the file is what a session has saved exactly when nothing has been saved since. When
  // RecordingComplete is about to be emitted only another's transcript can have been, and when
  // TranscriptComplete is, only another session's save.
  lemma SavedFileExactly(d: State, saves: seq<Save>, i: nat)
    requires Ran(d, saves) && i < |saves|
    ensures
      var s := saves[i].session;
      && s in d.infos
      && (d.last == Some(FileOf(d, saves[i])) <==> i == |saves| - 1)
      && (AboutToSay(d, s, RecordingComplete) ==>
            forall k | i < k < |saves| :: saves[k].SavedTranscript? && saves[k].session != s)
      && (saves[i].SavedTranscript? ==> forall k | i < k < |saves| :: saves[k].session != s)
  {
    hide Ran, Inv, HoldsSlot, PastAudio, PastTranscript, Instr, FileOf;
    RanKeepsHistory(d, saves);
    var s := saves[i].session;
    var final := saves[|saves| - 1];
    if i < |saves| - 1 {
      FilesDiffer(d, saves[i], final);
    }
    SpeakersHold(d.pcs[s], d.infos[s].auto);
    if AboutToSay(d, s, RecordingComplete) {
      forall k | i < k < |saves|
        ensures saves[k].SavedTranscript? && saves[k].session != s
      {
        assert Past(d.pcs[saves[k].session], saves[k]);
      }
    }
  }
}
