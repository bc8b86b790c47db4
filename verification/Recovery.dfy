/**
 Startup recovery of a recording that a crash interrupted
 (`crates/zwhisperd/src/orphan_recovery.rs`), and what it finds after a crash at
 any step of any run, with sessions that overlap or with one toggle client.
 */
module Recovery {
  import opened Wrappers
  import opened SessionManagers
  import opened Protocol
  import opened ProtocolProofs
  import opened NoOverlap
  import opened ActiveFiles
  import Overlaps

  /** The forms in which `active-session.json` can be found. */
  datatype OnDisk = Absent | Malformed | Parsed(file: ActiveFile)

  /** `read_from`, when the read itself succeeds: anything but a file of this schema version counts as absent. */
  function ReadFrom(f: OnDisk): Option<ActiveFile> {
    if f.Parsed? && f.file.schemaVersion == SCHEMA_VERSION then Some(f.file) else None
  }

  function AudioPathFor(id: SessionId): string {
    RECORDINGS_DIR + id + ".flac"
  }

  datatype Backend = WhisperCpp | Deepgram | Parakeet | AssemblyAi | OpenAi

  datatype Profile = Profile(name: string, backend: Backend, model: string, deepgramModel: Option<string>)

  datatype JobSpec = JobSpec(sessionId: SessionId, source: string, profile: string, model: string, title: string)

  /** A Deepgram profile's own model wins over the generic one. */
  function BuildJobSpec(session: ActiveFile, audio: string, profile: Profile): JobSpec {
    JobSpec(session.sessionId, audio, profile.name,
            if profile.backend == Deepgram && profile.deepgramModel.Some? then profile.deepgramModel.value
            else profile.model,
            "recovered:" + session.sessionId)
  }

  /** Field by field, the job that transcribes the recording at `path` of session `id`. */
  predicate IsJob(job: JobSpec, id: SessionId, path: string, profile: Profile) {
    && job.sessionId == id && job.source == path && job.title == "recovered:" + id
    && job.profile == profile.name
    && (profile.backend == Deepgram && profile.deepgramModel.Some? ==> job.model == profile.deepgramModel.value)
    && (profile.backend != Deepgram || profile.deepgramModel.None? ==> job.model == profile.model)
  }

  /** The recordings on disk with their lengths, and the profiles that load. */
  datatype Store = Store(recordings: map<string, nat>, profiles: map<string, Profile>)

  /**
     What the fallible calls of one recovery return: reading the active-session file,
     asking for the recording's length, writing the last-session file, submitting the
     job, removing the active-session file.
   */
  datatype Outcomes = Outcomes(read: bool, sized: bool, lastWritten: bool, accepted: bool, removed: bool)

  datatype Disk = Disk(active: OnDisk, last: Option<LastFile>, jobs: seq<JobSpec>)

  predicate WorthRecovering(audioLength: Option<nat>) {
    audioLength.Some? && audioLength.value > 0
  }

  predicate HasAudio(store: Store, path: string) {
    path in store.recordings && store.recordings[path] > 0
  }

  /** The job a recovery of `session` submits, if any. */
  function JobsFor(store: Store, session: ActiveFile, o: Outcomes): seq<JobSpec> {
    var path := OutputPath(session.sessionId);
    if o.sized && HasAudio(store, path) && session.profile in store.profiles && o.accepted then
      [BuildJobSpec(session, path, store.profiles[session.profile])]
    else
      []
  }

  function Recovered(disk: Disk, store: Store, o: Outcomes): Disk {
    if !o.read || ReadFrom(disk.active).None? then disk
    else
      var session := ReadFrom(disk.active).value;
      var path := OutputPath(session.sessionId);
      Disk(if o.removed then Absent else disk.active,
           if o.sized && HasAudio(store, path) && o.lastWritten then Some(AudioOnlyFile(session.sessionId, path))
           else disk.last,
           disk.jobs + JobsFor(store, session, o))
  }

  class Host {
    var active: OnDisk
    var last: Option<LastFile>
    var jobs: seq<JobSpec>
    var recordings: map<string, nat>
    var profiles: map<string, Profile>

    ghost function View(): Disk
      reads this
    {
      Disk(active, last, jobs)
    }

    ghost function Stored(): Store
      reads this
    {
      Store(recordings, profiles)
    }

    constructor (active: OnDisk, last: Option<LastFile>, recordings: map<string, nat>, profiles: map<string, Profile>)
      ensures View() == Disk(active, last, []) && Stored() == Store(recordings, profiles)
    {
      this.active, this.last, this.jobs := active, last, [];
      this.recordings, this.profiles := recordings, profiles;
    }

    method ClearActive(removed: bool)
      modifies `active
      ensures active == if removed then Absent else old(active)
    {
      if removed {
        active := Absent;
      }
    }

    /** A file that cannot be read counts as absent. */
    method ReadActive(ok: bool) returns (session: Option<ActiveFile>)
      ensures session == if ok then ReadFrom(active) else None
    {
      session := if ok then ReadFrom(active) else None;
    }

    /** A recording whose length cannot be had counts as missing. */
    method AudioLength(path: string, ok: bool) returns (length: Option<nat>)
      ensures length == if ok && path in recordings then Some(recordings[path]) else None
    {
      length := if ok && path in recordings then Some(recordings[path]) else None;
    }

    /** Every failure is only logged; the audio is never written. */
    method Recover(o: Outcomes)
      modifies `active, `last, `jobs
      ensures View() == Recovered(old(View()), old(Stored()), o)
      // a file that is read, and of this version, is removed whatever else fails; nothing else is touched
      ensures var found := o.read && old(active).Parsed? && old(active).file.schemaVersion == 1;
              && active == (if found && o.removed then Absent else old(active))
              && (!found ==> last == old(last) && jobs == old(jobs))
      // audio that is seen is announced in the last-session file, its transcript still to come
      ensures var heard := o.read && old(active).Parsed? && old(active).file.schemaVersion == 1 && o.sized
                           && OutputPath(old(active).file.sessionId) in recordings
                           && recordings[OutputPath(old(active).file.sessionId)] > 0;
              && (last == if heard && o.lastWritten then
                            var id := old(active).file.sessionId;
                            Some(LastFile(1, id, OutputPath(id), "", ""))
                          else old(last))
              && (!heard ==> jobs == old(jobs))
      // and is submitted if its profile loads and the queue accepts
              && (heard ==>
                    var session := old(active).file;
                    if session.profile in profiles && o.accepted then
                      && |jobs| == |old(jobs)| + 1 && old(jobs) < jobs
                      && IsJob(jobs[|jobs| - 1], session.sessionId, OutputPath(session.sessionId),
                               profiles[session.profile])
                    else jobs == old(jobs))
    {
      var session := ReadActive(o.read);
      if session.None? {
        return;
      }
      var audioPath := AudioPathFor(session.value.sessionId);
      var audioLength := AudioLength(audioPath, o.sized);
      if !WorthRecovering(audioLength) {
        ClearActive(o.removed);
        return;
      }
      if o.lastWritten {
        last := Some(AudioOnlyFile(session.value.sessionId, audioPath));
      }
      if session.value.profile in profiles {
        var spec := BuildJobSpec(session.value, audioPath, profiles[session.value.profile]);
        if o.accepted {
          jobs := jobs + [spec];
        }
      }
      ClearActive(o.removed);
    }
  }

  // ---- What one recovery does, seen from outside -----------------------------------------

  // A job is submitted exactly when a readable file names a session whose audio is seen and whose profile
  // loads; it is that session's, on that session's recording.
  lemma SubmitsExactly(disk: Disk, store: Store, o: Outcomes, job: JobSpec)
    ensures Recovered(disk, store, o).jobs == disk.jobs + [job] <==>
              && o.read && disk.active.Parsed? && disk.active.file.schemaVersion == 1
              && var session := disk.active.file;
                 var path := OutputPath(session.sessionId);
              && o.sized && path in store.recordings && store.recordings[path] > 0
              && session.profile in store.profiles && o.accepted
              && IsJob(job, session.sessionId, path, store.profiles[session.profile])
    ensures Recovered(disk, store, o).jobs != disk.jobs ==>
              |Recovered(disk, store, o).jobs| == |disk.jobs| + 1 && disk.jobs < Recovered(disk, store, o).jobs
  {
    var after := Recovered(disk, store, o).jobs;
    if after == disk.jobs + [job] {
      assert after[|disk.jobs|] == job;
    }
  }

  // Recovering again submits nothing more exactly when there was nothing to find, the first removed it, or
  // the second has no job to submit: a removal that fails repeats the transcription at every start.
  lemma RecoversOnce(disk: Disk, store: Store, o: Outcomes, o': Outcomes)
    ensures var once := Recovered(disk, store, o);
            Recovered(once, store, o').jobs == once.jobs <==>
              || ReadFrom(disk.active).None? || (o.read && o.removed)
              || !o'.read || JobsFor(store, ReadFrom(disk.active).value, o') == []
  {
    var once := Recovered(disk, store, o);
    assert |Recovered(once, store, o').jobs| >= |once.jobs|;
  }

  /** Every call succeeds. */
  const SMOOTH := Outcomes(true, true, true, true, true)

  /**
     One life of the daemon after the crash: what its recovery met, whether the job that
     submits ends before the daemon dies again, and what the life's own sessions left
     in the file's place, if they touched it.
   */
  datatype Start = Start(outcomes: Outcomes, ends: bool, replaced: Option<OnDisk>)

  /** Session ids are fresh: what later sessions leave does not name `s`. */
  predicate Foreign(start: Start, s: SessionId) {
    start.replaced.Some? && start.replaced.value.Parsed? ==> start.replaced.value.file.sessionId != s
  }

  /** The queue is in memory: a daemon that starts has no jobs but those it submits itself. */
  function Restarted(disk: Disk): Disk {
    disk.(jobs := [])
  }

  function NextLife(disk: Disk, store: Store, start: Start): Disk {
    var after := Recovered(Restarted(disk), store, start.outcomes);
    if start.replaced.Some? then after.(active := start.replaced.value) else after
  }

  ghost predicate HasJobOf(disk: Disk, s: SessionId) {
    exists job :: job in disk.jobs && job.sessionId == s
  }

  ghost predicate Transcribes(disk: Disk, store: Store, start: Start, s: SessionId) {
    start.ends && HasJobOf(Recovered(Restarted(disk), store, start.outcomes), s)
  }

  /** One of the starts, each recovering from what the last life left, brings a transcript of `s`. */
  ghost predicate EverTranscribed(disk: Disk, store: Store, starts: seq<Start>, s: SessionId)
    decreases |starts|
  {
    starts != [] && (|| Transcribes(disk, store, starts[0], s)
                     || EverTranscribed(NextLife(disk, store, starts[0]), store, starts[1..], s))
  }

  /** The recovery reads the file and removes it, or a session of that life writes or removes it. */
  predicate Consumes(start: Start) {
    (start.outcomes.read && start.outcomes.removed) || start.replaced.Some?
  }

  predicate GoesThrough(start: Start) {
    var o := start.outcomes;
    o.read && o.sized && o.accepted && start.ends
  }

  predicate Names(disk: Disk, s: SessionId) {
    ReadFrom(disk.active).Some? && ReadFrom(disk.active).value.sessionId == s
  }

  /** The file names the recording of `s`, which has audio, and its profile loads. */
  predicate Recoverable(disk: Disk, store: Store, s: SessionId) {
    Names(disk, s) && HasAudio(store, OutputPath(s)) && ReadFrom(disk.active).value.profile in store.profiles
  }

  lemma OneStart(disk: Disk, store: Store, start: Start, s: SessionId)
    requires Recoverable(disk, store, s) && Foreign(start, s)
    ensures Transcribes(disk, store, start, s) <==> GoesThrough(start)
    ensures var next := NextLife(disk, store, start);
            if Consumes(start) then !Names(next, s) else Recoverable(next, store, s)
  {
    hide OutputPath;
    var jobs := Recovered(Restarted(disk), store, start.outcomes).jobs;
    assert jobs != [] ==> jobs[0].sessionId == s;
  }

  lemma OtherStart(disk: Disk, store: Store, start: Start, s: SessionId)
    requires !Names(disk, s) && Foreign(start, s)
    ensures !Transcribes(disk, store, start, s) && !Names(NextLife(disk, store, start), s)
  {
    hide OutputPath;
  }

  lemma {:induction false} UnnamedIsNeverTranscribed(disk: Disk, store: Store, starts: seq<Start>, s: SessionId)
    requires !Names(disk, s) && forall k | 0 <= k < |starts| :: Foreign(starts[k], s)
    ensures !EverTranscribed(disk, store, starts, s)
    decreases |starts|
  {
    hide Names, Transcribes, NextLife, Foreign;
    if starts != [] {
      OtherStart(disk, store, starts[0], s);
      UnnamedIsNeverTranscribed(NextLife(disk, store, starts[0]), store, starts[1..], s);
    }
  }

  // Through any number of crashes, of which any may also take the recovery job, an interrupted recording that
  // has audio and a profile is transcribed exactly if some start goes through, and in no life before it
  // the file was removed or replaced.
  lemma {:induction false} TranscribedExactly(disk: Disk, store: Store, starts: seq<Start>, s: SessionId)
    requires Recoverable(disk, store, s) && forall k | 0 <= k < |starts| :: Foreign(starts[k], s)
    ensures EverTranscribed(disk, store, starts, s) <==>
              exists k :: 0 <= k < |starts| && GoesThrough(starts[k]) && forall j | 0 <= j < k :: !Consumes(starts[j])
    decreases |starts|
  {
    hide Recoverable, Transcribes, NextLife, Consumes, GoesThrough, Foreign, Names;
    if starts != [] {
      var next := NextLife(disk, store, starts[0]);
      var rest := starts[1..];
      OneStart(disk, store, starts[0], s);
      if Consumes(starts[0]) {
        UnnamedIsNeverTranscribed(next, store, rest, s);
      } else {
        TranscribedExactly(next, store, rest, s);
        if EverTranscribed(next, store, rest, s) {
          var k :| 0 <= k < |rest| && GoesThrough(rest[k]) && forall j | 0 <= j < k :: !Consumes(rest[j]);
          assert GoesThrough(starts[k + 1]);
          assert forall j | 1 <= j < k + 1 :: starts[j] == rest[j - 1];
        }
        if k :| 0 <= k < |starts| && GoesThrough(starts[k]) && forall j | 0 <= j < k :: !Consumes(starts[j]) {
          if k > 0 {
            assert GoesThrough(rest[k - 1]);
            assert forall j | 0 <= j < k - 1 :: rest[j] == starts[j + 1];
          }
        }
      }
    }
  }

  /** No later session is named `s`. */
  ghost predicate AllForeign(starts: seq<Start>, s: SessionId) {
    forall k | 0 <= k < |starts| :: Foreign(starts[k], s)
  }

  // So a start loses the recording to transcription for good, whatever later ones do, exactly when the file is
  // removed or replaced in its life and the length could not be had, the queue refused, or the daemon dies
  // before the job ends. When the length could not be had, nothing even names the recording any more.
  lemma LostForGood(disk: Disk, store: Store, first: Start, s: SessionId)
    requires Recoverable(disk, store, s) && Foreign(first, s)
    ensures (forall later :: AllForeign(later, s) ==> !EverTranscribed(disk, store, [first] + later, s))
       <==> Consumes(first) && !GoesThrough(first)
    ensures var o := first.outcomes;
            o.read && o.removed && !o.sized ==> Recovered(disk, store, o) == Disk(Absent, disk.last, disk.jobs)
  {
    hide EverTranscribed, OutputPath, HasAudio, Foreign;
    var again := [Start(SMOOTH, true, None)];
    var smooth := [first] + again;
    assert AllForeign(again, s) by { NoneIsForeign(SMOOTH, s); }
    TranscribedExactly(disk, store, smooth, s);
    if GoesThrough(first) {
      assert GoesThrough(smooth[0]);
    } else if !Consumes(first) {
      assert GoesThrough(smooth[1]);
    } else {
      forall later | AllForeign(later, s)
        ensures !EverTranscribed(disk, store, [first] + later, s)
      {
        assert ([first] + later)[0] == first;
        TranscribedExactly(disk, store, [first] + later, s);
      }
    }
  }

  lemma NoneIsForeign(o: Outcomes, s: SessionId)
    ensures Foreign(Start(o, true, None), s)
  {
  }

  lemma LastFileStaysOwn(disk: Disk, store: Store, o: Outcomes)
    requires LastFileIsOwn(disk.last)
    ensures LastFileIsOwn(Recovered(disk, store, o).last)
  {
  }

  // ---- A crash at any step ------------------------------------------------------------------

  function FileOnDisk(active: Option<ActiveFile>): OnDisk {
    if active.Some? then Parsed(active.value) else Absent
  }

  /** What a daemon that dies in `d` leaves behind, before any recovery job. */
  function LeftBehind(d: State): Disk {
    Disk(FileOnDisk(d.active), d.last, [])
  }

  /** The session was mid-flight: it said "recording" and has not said a terminal state. */
  ghost predicate Interrupted(d: State, s: SessionId) {
    var word := Project(d.log, s);
    Recording in word && Idle !in word && Failed !in word
  }

  /** The recovery of `s`: its job on exactly the path its recorder was given, and what it does to the files. */
  ghost predicate RecoveredAs(d: State, s: SessionId, store: Store, o: Outcomes)
    requires s in d.infos
  {
    var info := d.infos[s];
    var after := Recovered(LeftBehind(d), store, o);
    var audible := o.read && o.sized && info.output in store.recordings && store.recordings[info.output] > 0;
    && (after.active == Absent <==> o.read && o.removed)
    && after.last == (if audible && o.lastWritten then Some(LastFile(1, s, info.output, "", "")) else d.last)
    && (if audible && info.profile in store.profiles && o.accepted then
          |after.jobs| == 1 && IsJob(after.jobs[0], s, info.output, store.profiles[info.profile])
        else after.jobs == [])
  }

  lemma NamedIsRecovered(d: State, s: SessionId, store: Store, o: Outcomes)
    requires FileNames(d, s) && d.infos[s].output == OutputPath(s)
    ensures RecoveredAs(d, s, store, o)
  {
    hide OutputPath;
  }

  lemma UnnamedIsNot(d: State, s: SessionId, store: Store, o: Outcomes)
    requires d.active.None? || d.active.value.sessionId != s
    ensures !HasJobOf(Recovered(LeftBehind(d), store, o), s)
  {
    hide OutputPath;
  }

  lemma OutputsAreOwn(d: State)
    requires Inv(d)
    ensures forall s | s in d.infos :: d.infos[s].output == OutputPath(s)
  {
    hide SlotOwned, HookOwned, GuardsCounted, TasksRegistered, StopsPrecise, WordsKept, LogOwned, PathsOwned;
    hide OutputPath;
  }

  lemma InterruptedGoesOn(d: State, s: SessionId)
    requires Inv(d) && Interrupted(d, s)
    ensures s in d.pcs && !d.pcs[s].Finished?
  {
    hide SlotOwned, HookOwned, GuardsCounted, TasksRegistered, StopsPrecise, WordsKept, LogOwned, PathsOwned, Project;
    MidRecordingIsKnown(d, s);
  }

  // Crash in any state of any run, sessions overlapping: an interrupted session that wrote the file is the one
  // picked up exactly when no other session has written or removed it since; while the session holds the
  // slot, exactly when no other session has removed it since.
  lemma PickedUpExactly(d: State, touches: seq<Touch>, i: nat, store: Store, o: Outcomes)
    requires Ran(d, touches) && i < |touches| && touches[i].Written? && Interrupted(d, touches[i].session)
    ensures
      var s := touches[i].session;
      var touched := exists k :: i < k < |touches| && touches[k].session != s;
      && s in d.pcs && s in d.infos
      && (!touched ==> RecoveredAs(d, s, store, o))
      && (HasJobOf(Recovered(LeftBehind(d), store, o), s)
          <==> && !touched && o.read && o.sized
               && d.infos[s].output in store.recordings && store.recordings[d.infos[s].output] > 0
               && d.infos[s].profile in store.profiles && o.accepted)
      && (HoldsSlot(d.pcs[s]) ==>
            (touched <==> exists k :: i < k < |touches| && touches[k].Removed? && touches[k].session != s))
  {
    hide Ran, HoldsSlot, Interrupted, OutputPath, HistoryInv, Inv;
    RanKeepsHistory(d, touches);
    NamedExactly(d, touches, i);
    var s := touches[i].session;
    InterruptedGoesOn(d, s);
    OutputsAreOwn(d);
    hide Recovered;
    if i == |touches| - 1 {
      NamedIsRecovered(d, s, store, o);
      JobIsOwn(d, s, store, o);
    } else {
      assert touches[|touches| - 1].session != s;
      UnnamedIsNot(d, s, store, o);
    }
  }

  lemma JobIsOwn(d: State, s: SessionId, store: Store, o: Outcomes)
    requires s in d.infos && RecoveredAs(d, s, store, o)
    ensures HasJobOf(Recovered(LeftBehind(d), store, o), s)
       <==> && o.read && o.sized && d.infos[s].output in store.recordings && store.recordings[d.infos[s].output] > 0
            && d.infos[s].profile in store.profiles && o.accepted
  {
    hide Recovered, OutputPath;
    var jobs := Recovered(LeftBehind(d), store, o).jobs;
    assert jobs != [] ==> jobs[0].sessionId == s;
  }

  // And some recording, whose file was written as every other, is never picked up: another session's end has
  // removed the file.
  lemma SomeRecordingIsNotPickedUp() returns (w: World, s: SessionId)
    ensures Arises(w) && WriteFault !in w.faults && Interrupted(w.d, s) && s in w.d.pcs && w.d.pcs[s].Listening?
    ensures forall store, o :: Recovered(LeftBehind(w.d), store, o) == LeftBehind(w.d)
  {
    hide Arises, Inv;
    var before;
    before, w := Overlaps.RecordingLosesItsFile();
    s := "bb";
    ArisesIsReachable(w);
    ReachableIsInv(w.d);
    RecordingIsInterrupted(w.d, s);
  }

  lemma RecordingIsInterrupted(d: State, s: SessionId)
    requires Inv(d) && s in d.pcs && d.pcs[s].Listening?
    ensures Interrupted(d, s)
  {
    hide SlotOwned, HookOwned, GuardsCounted, TasksRegistered, StopsPrecise, LogOwned, PathsOwned, Domains, Project;
    assert Word(Listening)[2] == Recording;
  }

  // In a run that has not overlapped nobody else is in the way: the session that said "recording" and no
  // terminal state, and whose file was written, is the one picked up.
  lemma InterruptedIsRecovered(w: World, s: SessionId, store: Store, o: Outcomes)
    requires Arises(w) && !w.overlapped && s !in w.unwritten && Interrupted(w.d, s)
    ensures s in w.d.infos && RecoveredAs(w.d, s, store, o)
  {
    hide Arises, Interrupted, OutputPath, Open, RecoveredAs, Inv, Reachable;
    InterruptedHasFile(w, s);
    ArisesIsReachable(w);
    ReachableIsInv(w.d);
    OutputsAreOwn(w.d);
    NamedIsRecovered(w.d, s, store, o);
  }

  lemma InterruptedHasFile(w: World, s: SessionId)
    requires Arises(w) && !w.overlapped && s !in w.unwritten && Interrupted(w.d, s)
    ensures FileNames(w.d, s)
  {
    FileNamesTheSession(w, s);
  }

  // When every removal has succeeded, a session is picked up if and only if it has written the file and
  // not yet removed it; so no session that gave up or ended is, and never two.
  lemma OnlyTheHolderIsPicked(w: World, s: SessionId)
    requires Arises(w) && !w.overlapped && w.clean
    ensures (ReadFrom(LeftBehind(w.d).active).Some? && ReadFrom(LeftBehind(w.d).active).value.sessionId == s)
       <==> s in w.d.pcs && HasFile(w.d.pcs[s]) && s !in w.unwritten
  {
    hide Arises, OneOpen, Knows, Sequential, HasFile, FaultsKept, WordsKept;
    ArisesKnows(w);
  }

  // ---- Any number of crashes ------------------------------------------------------------------

  /** One life of the daemon: it dies in `w`, and the next start recovers with these outcomes. */
  datatype Life = Life(w: World, store: Store, outcomes: Outcomes)

  function ToState(f: OnDisk): Option<ActiveFile> {
    if f.Parsed? then Some(f.file) else None
  }

  /** Each life boots over the state files the last recovery left. */
  ghost predicate Lives(active: Option<ActiveFile>, last: Option<LastFile>, ls: seq<Life>)
    decreases |ls|
  {
    ls == []
    || (&& (exists ms :: Trail(Boot(active, last), ms, ls[0].w))
        && var disk := Recovered(LeftBehind(ls[0].w.d), ls[0].store, ls[0].outcomes);
           Lives(ToState(disk.active), disk.last, ls[1..]))
  }

  // If every removal succeeded, the next life again boots over no file.
  lemma NextLifeStartsClean(w: World, store: Store, o: Outcomes)
    requires Arises(w) && !w.overlapped && w.clean && o.read && o.removed
    ensures Boot(ToState(Recovered(LeftBehind(w.d), store, o).active), w.d.last).clean
  {
    hide Arises, OneOpen, Knows, Sequential, HasFile, FaultsKept, WordsKept, OutputPath;
    ArisesKnows(w);
  }

  lemma LeftBehindIsOwn(w: World)
    requires Arises(w)
    ensures LastFileIsOwn(LeftBehind(w.d).last)
  {
    hide Arises, Apart, CallsOwned, FaultsKept, UnwrittenPast;
    ArisesIsInv(w);
    hide Domains, SlotOwned, HookOwned, GuardsCounted, TasksRegistered, StopsPrecise, WordsKept, LogOwned;
  }

  // Through any number of crashes and restarts, every life is a run of the composition, so what is proved
  // of one crash holds at each.
  lemma {:induction false} EveryLifeArises(active: Option<ActiveFile>, last: Option<LastFile>, ls: seq<Life>, k: nat)
    requires LastFileIsOwn(last) && Lives(active, last, ls) && k < |ls|
    ensures Arises(ls[k].w)
    decreases |ls|
  {
    var ms :| Trail(Boot(active, last), ms, ls[0].w);
    assert Arises(ls[0].w);
    if k > 0 {
      LeftBehindIsOwn(ls[0].w);
      var disk := Recovered(LeftBehind(ls[0].w.d), ls[0].store, ls[0].outcomes);
      LastFileStaysOwn(LeftBehind(ls[0].w.d), ls[0].store, ls[0].outcomes);
      hide Arises, Trail, Recovered, WorldInv, LastFileIsOwn, Boot;
      EveryLifeArises(ToState(disk.active), disk.last, ls[1..], k - 1);
    }
  }
}
