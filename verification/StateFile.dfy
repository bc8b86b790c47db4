/**
 The atomic writer of the two state files, `active-session.json` and
 `last-session.json` (`write_atomic_to` in `crates/zwhisperd/src/active_session.rs`
 and `crates/zwhisperd/src/last_session.rs`, one algorithm with two file stems).

 A directory maps names to files, and remembers every state it has been in, since a
 reader may look, or the machine may crash, between any two steps. A crash may lose
 bytes that were not synced, and may undo renames and removals made since the
 directory itself was.
 */
module StateFile {
  import opened Wrappers

  /** The first `durable` bytes survive a crash. */
  datatype File = File(bytes: Bytes, durable: nat)

  type Files = map<string, File>

  datatype WriteError = CreateDir | CreateTemp | Serialize | Write | Sync | Rename

  function Canonical(stem: string): string {
    stem + ".json"
  }

  function TempName(stem: string, pid: string, stamp: string): string {
    stem + "-" + pid + "-" + stamp + ".tmp"
  }

  lemma TempIsNotCanonical(stem: string, pid: string, stamp: string)
    ensures TempName(stem, pid, stamp) != Canonical(stem)
  {
    var t, c := TempName(stem, pid, stamp), Canonical(stem);
    assert t[|t| - 1] == 'p' && c[|c| - 1] == 'n';
  }

  function Whole(payload: Bytes): File {
    File(payload, |payload|)
  }

  function Lookup(files: Files, name: string): Option<File> {
    if name in files then Some(files[name]) else None
  }

  /**
     `now` is a state the writer of `payload` may pass through from `before`: the
     canonical file is the old one or the whole new one, and only the temporary
     file differs otherwise.
   */
  ghost predicate Untorn(before: Files, now: Files, path: string, temp: string, payload: Bytes) {
    && (Lookup(now, path) == Lookup(before, path) || Lookup(now, path) == Some(Whole(payload)))
    && (forall name | name != path && name != temp :: Lookup(now, name) == Lookup(before, name))
  }

  /** Every recorded state from the `n`-th on is such a state. */
  ghost predicate UntornSince(h: seq<Files>, n: nat, before: Files, path: string, temp: string, payload: Bytes) {
    forall k | n <= k < |h| :: Untorn(before, h[k], path, temp, payload)
  }

  ghost predicate UnpublishedSince(h: seq<Files>, n: nat, before: Files, path: string) {
    forall k | n <= k < |h| :: Lookup(h[k], path) == Lookup(before, path)
  }

  /** Every recorded state from the `n`-th on differs from `before` in the temporary file only. */
  ghost predicate QuietSince(h: seq<Files>, n: nat, before: Files, temp: string) {
    forall k | n <= k < |h| :: h[k] - {temp} == before - {temp}
  }

  lemma QuietSnoc(h: seq<Files>, n: nat, before: Files, temp: string, files: Files)
    requires QuietSince(h, n, before, temp) && files - {temp} == before - {temp}
    ensures QuietSince(h + [files], n, before, temp)
  {
  }

  lemma SameElsewhere(now: Files, before: Files, temp: string, name: string)
    requires now - {temp} == before - {temp} && name != temp
    ensures Lookup(now, name) == Lookup(before, name)
  {
    assert Lookup(now, name) == Lookup(now - {temp}, name);
    assert Lookup(before, name) == Lookup(before - {temp}, name);
  }

  lemma QuietIsUntorn(h: seq<Files>, n: nat, before: Files, path: string, temp: string, payload: Bytes)
    requires QuietSince(h, n, before, temp) && path != temp
    ensures UntornSince(h, n, before, path, temp, payload) && UnpublishedSince(h, n, before, path)
  {
    forall k, name | n <= k < |h| && name != temp
      ensures Lookup(h[k], name) == Lookup(before, name)
    {
      SameElsewhere(h[k], before, temp, name);
    }
  }

  // The rename is the one step that changes the canonical file.
  lemma PublishIsUntorn(h: seq<Files>, n: nat, before: Files, path: string, temp: string, payload: Bytes)
    requires QuietSince(h, n, before, temp) && path != temp && temp !in before && n <= |h|
    ensures UntornSince(h + [before[path := Whole(payload)]], n, before, path, temp, payload)
  {
    QuietIsUntorn(h, n, before, path, temp, payload);
  }

  class Directory {
    var files: Files
    ghost var history: seq<Files>
    // where in the history the directory was last synced
    ghost var settled: nat

    ghost predicate Valid()
      reads this
    {
      settled < |history| && history[|history| - 1] == files
    }

    /** After a crash now the name is sure to have this entry: it had it ever since the directory was synced. */
    ghost predicate Survives(name: string, entry: Option<File>)
      reads this
    {
      forall k | settled <= k < |history| :: Lookup(history[k], name) == entry
    }

    constructor (files: Files)
      ensures Valid() && this.files == files && history == [files] && settled == 0
    {
      this.files := files;
      history := [files];
      settled := 0;
    }

    /** Syncs the directory itself, if it can be opened. */
    method SyncDir(ok: bool)
      requires Valid()
      modifies `history, `settled
      ensures Valid() && history == old(history) + [files]
      ensures settled == if ok then |old(history)| else old(settled)
    {
      history := history + [files];
      if ok {
        settled := |history| - 1;
      }
    }

    /** Opens a file that must not exist yet. */
    method CreateNew(name: string, ok: bool) returns (created: bool)
      requires Valid()
      modifies `files, `history
      ensures Valid() && history == old(history) + [files]
      ensures created <==> ok && name !in old(files)
      ensures files == if created then old(files)[name := File([], 0)] else old(files)
    {
      created := ok && name !in files;
      if created {
        files := files[name := File([], 0)];
      }
      history := history + [files];
    }

    /** One write: some of the data, as far as there is room, or a failure. */
    method WriteSome(name: string, data: Bytes, room: nat) returns (n: Option<nat>)
      requires Valid() && name in files && data != []
      modifies `files, `history
      ensures Valid() && history == old(history) + [files]
      ensures n.Some? <==> room > 0
      ensures n.Some? ==> 0 < n.value <= |data| && n.value <= room
      ensures files == if n.None? then old(files) else
                         old(files)[name := File(old(files)[name].bytes + data[..n.value], old(files)[name].durable)]
    {
      if room == 0 {
        n := None;
      } else {
        var count: nat :| 0 < count <= |data| && count <= room;
        n := Some(count);
        files := files[name := File(files[name].bytes + data[..count], files[name].durable)];
      }
      history := history + [files];
    }

    method SyncAll(name: string, ok: bool)
      requires Valid() && name in files
      modifies `files, `history
      ensures Valid() && history == old(history) + [files]
      ensures files == if ok then old(files)[name := Whole(old(files)[name].bytes)] else old(files)
    {
      if ok {
        files := files[name := Whole(files[name].bytes)];
      }
      history := history + [files];
    }

    method RemoveFile(name: string, ok: bool)
      requires Valid()
      modifies `files, `history
      ensures Valid() && history == old(history) + [files]
      ensures files == if ok then old(files) - {name} else old(files)
    {
      if ok {
        files := files - {name};
      }
      history := history + [files];
    }

    method RenameFile(from: string, to: string, ok: bool)
      requires Valid() && from in files && from != to
      modifies `files, `history
      ensures Valid() && history == old(history) + [files]
      ensures files == if ok then (old(files) - {from})[to := old(files)[from]] else old(files)
    {
      if ok {
        files := (files - {from})[to := files[from]];
      }
      history := history + [files];
    }
  }

  /**
     What the calls of one write come to: making the directory, creating the temporary
     file, how many bytes there is room for, syncing the file, renaming it, removing it
     after a failure, syncing the directory.
   */
  datatype Outcomes = Outcomes(
    dirMade: bool, created: bool, room: nat, fileSynced: bool, renamed: bool, removed: bool, dirSynced: bool)

  /** `write_all`: writes until nothing is left or one write fails. */
  method WriteAll(dir: Directory, temp: string, payload: Bytes, room: nat, ghost before: Files, ghost n: nat)
    returns (ok: bool)
    requires dir.Valid() && n < |dir.history| && QuietSince(dir.history, n, before, temp)
    requires temp in dir.files && dir.files[temp].bytes == []
    modifies dir`files, dir`history
    ensures dir.Valid() && old(dir.history) <= dir.history && QuietSince(dir.history, n, before, temp)
    ensures temp in dir.files
    ensures ok <==> |payload| <= room
    ensures ok ==> dir.files[temp].bytes == payload
  {
    var done := 0;
    while done < |payload|
      invariant dir.Valid() && done <= |payload| && done <= room
      invariant old(dir.history) <= dir.history && QuietSince(dir.history, n, before, temp)
      invariant temp in dir.files && dir.files[temp].bytes == payload[..done]
    {
      assert dir.files - {temp} == before - {temp};
      var count := dir.WriteSome(temp, payload[done..], room - done);
      if count.None? {
        return false;
      }
      assert payload[..done] + payload[done..][..count.value] == payload[..done + count.value];
      done := done + count.value;
    }
    ok := true;
  }

  /** Creates, fills and syncs the temporary file; on a failed write or sync it tries to remove it. */
  method Prepare(dir: Directory, temp: string, payload: Bytes, o: Outcomes, ghost before: Files, ghost n: nat)
    returns (r: Result<(), WriteError>)
    requires dir.Valid() && n == |dir.history| && before == dir.files
    modifies dir`files, dir`history
    ensures dir.Valid() && old(dir.history) <= dir.history && QuietSince(dir.history, n, before, temp)
    ensures dir.files - {temp} == before - {temp}
    ensures r == if !o.created || temp in before then Err(CreateTemp)
                 else if o.room < |payload| then Err(Write)
                 else if !o.fileSynced then Err(Sync)
                 else Ok(())
    ensures r.Ok? ==> temp in dir.files && dir.files[temp] == Whole(payload)
    ensures r == Err(CreateTemp) ==> dir.files == before
    ensures r in {Err(Write), Err(Sync)} ==> (temp in dir.files <==> !o.removed)
  {
    var created := dir.CreateNew(temp, o.created);
    QuietSnoc(old(dir.history), n, before, temp, dir.files);
    if !created {
      return Err(CreateTemp);
    }
    var written := WriteAll(dir, temp, payload, o.room, before, n);
    ghost var h := dir.history;
    assert dir.files - {temp} == before - {temp};
    if !written {
      dir.RemoveFile(temp, o.removed);
      QuietSnoc(h, n, before, temp, dir.files);
      return Err(Write);
    }
    dir.SyncAll(temp, o.fileSynced);
    QuietSnoc(h, n, before, temp, dir.files);
    if !o.fileSynced {
      h := dir.history;
      dir.RemoveFile(temp, o.removed);
      QuietSnoc(h, n, before, temp, dir.files);
      return Err(Sync);
    }
    r := Ok(());
  }

  /**
     Writes `payload` (`None` when it cannot be serialized) under the canonical name.
     Whatever fails, and wherever a reader looks, the canonical file is whole.
   */
  method WriteAtomic(dir: Directory, stem: string, pid: string, stamp: string, payload: Option<Bytes>, o: Outcomes)
    returns (r: Result<(), WriteError>)
    requires dir.Valid()
    modifies dir
    ensures dir.Valid() && old(dir.history) <= dir.history
    // at every moment the canonical file is the whole old or the whole new one
    ensures payload.Some? ==>
              UntornSince(dir.history, |old(dir.history)|, old(dir.files), Canonical(stem), TempName(stem, pid, stamp),
                          payload.value)
    ensures payload.None? ==> r.Err? && dir.files == old(dir.files) && dir.history == old(dir.history)
    // it succeeds exactly if every call before the directory's sync does, and fails as the first that does not
    ensures r == if !o.dirMade then Err(CreateDir)
                 else if payload.None? then Err(Serialize)
                 else if !o.created || TempName(stem, pid, stamp) in old(dir.files) then Err(CreateTemp)
                 else if o.room < |payload.value| then Err(Write)
                 else if !o.fileSynced then Err(Sync)
                 else if !o.renamed then Err(Rename)
                 else Ok(())
    // success publishes the payload, all its bytes synced, and leaves nothing else behind
    ensures r.Ok? ==> dir.files == old(dir.files)[Canonical(stem) := Whole(payload.value)]
    ensures r.Ok? ==>
              var name := stem + ".json";
              name in dir.files && dir.files[name] == File(payload.value, |payload.value|)
    // that it was published survives a crash exactly when the directory was synced too
    ensures r.Ok? && Lookup(old(dir.files), Canonical(stem)) != Some(Whole(payload.value)) ==>
              (dir.Survives(Canonical(stem), Some(Whole(payload.value))) <==> o.dirSynced)
    ensures r.Err? ==> dir.settled == old(dir.settled)
    // failure never published it, and leaves at most the temporary file
    ensures r.Err? ==>
              && UnpublishedSince(dir.history, |old(dir.history)|, old(dir.files), Canonical(stem))
              && dir.files - {TempName(stem, pid, stamp)} == old(dir.files) - {TempName(stem, pid, stamp)}
    ensures r == Err(Rename) ==> TempName(stem, pid, stamp) in dir.files
    ensures r in {Err(Write), Err(Sync)} ==> (TempName(stem, pid, stamp) in dir.files <==> !o.removed)
    ensures r in {Err(CreateDir), Err(Serialize), Err(CreateTemp)} ==> dir.files == old(dir.files)
  {
    ghost var before, n := dir.files, |dir.history|;
    var path, temp := Canonical(stem), TempName(stem, pid, stamp);
    TempIsNotCanonical(stem, pid, stamp);
    assert path == stem + ".json";
    hide Canonical, TempName, UntornSince, UnpublishedSince, QuietSince;
    NothingYet(dir.history, before, temp);
    if payload.Some? {
      QuietIsUntorn(dir.history, n, before, path, temp, payload.value);
    }
    if !o.dirMade {
      return Err(CreateDir);
    }
    if payload.None? {
      return Err(Serialize);
    }
    r := Prepare(dir, temp, payload.value, o, before, n);
    if r.Err? {
      QuietIsUntorn(dir.history, n, before, path, temp, payload.value);
      return;
    }
    ghost var h, files := dir.history, dir.files;
    dir.RenameFile(temp, path, o.renamed);
    if !o.renamed {
      QuietSnoc(h, n, before, temp, dir.files);
      QuietIsUntorn(dir.history, n, before, path, temp, payload.value);
      return Err(Rename);
    }
    assert files - {temp} == before by { assert before - {temp} == before; }
    PublishIsUntorn(h, n, before, path, temp, payload.value);
    ghost var published := dir.history;
    dir.SyncDir(o.dirSynced);
    UntornSnoc(published, n, before, path, temp, payload.value, dir.files);
    // the state before the write is still one a crash may restore
    assert !o.dirSynced ==> dir.history[n - 1] == before && dir.settled <= n - 1;
    r := Ok(());
  }

  lemma UntornSnoc(h: seq<Files>, n: nat, before: Files, path: string, temp: string, payload: Bytes, files: Files)
    requires UntornSince(h, n, before, path, temp, payload) && files == before[path := Whole(payload)]
    ensures UntornSince(h + [files], n, before, path, temp, payload)
  {
  }

  lemma NothingYet(h: seq<Files>, before: Files, temp: string)
    ensures QuietSince(h, |h|, before, temp)
    ensures forall path :: UnpublishedSince(h, |h|, before, path)
  {
  }

  // ---- Any number of writes, removals and crashes --------------------------------------------

  /** What happened to the directory: an attempt to write, stopped anywhere; a removal; a sync; a crash. */
  datatype Happening = Wrote(payload: Bytes) | Cleared | SyncedDir | Crashed

  /** The file keeps at least its synced bytes. */
  predicate Torn(entry: Option<File>, entry': Option<File>) {
    match entry
    case None => entry'.None?
    case Some(f) =>
      && entry'.Some? && entry'.value.bytes <= f.bytes && |entry'.value.bytes| >= f.durable
      && entry'.value.durable == |entry'.value.bytes|
  }

  /** A crash leaves the entry as it was, torn, in one of the states since the directory was synced. */
  ghost predicate CrashFrom(states: seq<Files>, files: Files, path: string) {
    exists j :: 0 <= j < |states| && Torn(Lookup(states[j], path), Lookup(files, path))
  }

  ghost predicate Happens(files: Files, h: Happening, files': Files, path: string) {
    match h
    case Wrote(payload) => exists temp :: temp != path && Untorn(files, files', path, temp, payload)
    case Cleared => Lookup(files', path) == None
    case SyncedDir => files' == files
    case Crashed => true
  }

  /** Which state the directory was last synced in, as of the `k`-th. */
  function LastSync(hs: seq<Happening>, k: nat): (j: nat)
    requires k <= |hs|
    ensures j <= k
  {
    if k == 0 || hs[k - 1].SyncedDir? || hs[k - 1].Crashed? then k else LastSync(hs, k - 1)
  }

  ghost predicate Course(fs: seq<Files>, hs: seq<Happening>, path: string) {
    && |fs| == |hs| + 1
    && (forall k | 0 <= k < |hs| :: Happens(fs[k], hs[k], fs[k + 1], path))
    && (forall k | 0 <= k < |hs| && hs[k].Crashed? :: CrashFrom(fs[LastSync(hs, k)..k + 1], fs[k + 1], path))
  }

  ghost predicate Settled(files: Files, path: string) {
    path in files ==> files[path] == Whole(files[path].bytes)
  }

  // Wherever `WriteAtomic` is stopped, what it leaves is one of these happenings.
  lemma InterruptedWriteHappens(h: seq<Files>, n: nat, k: nat, before: Files, stem: string, pid: string, stamp: string,
                                payload: Bytes)
    requires n <= k < |h| && UntornSince(h, n, before, Canonical(stem), TempName(stem, pid, stamp), payload)
    ensures Happens(before, Wrote(payload), h[k], Canonical(stem))
  {
    TempIsNotCanonical(stem, pid, stamp);
    assert Untorn(before, h[k], Canonical(stem), TempName(stem, pid, stamp), payload);
  }

  lemma TornWhole(files: Files, files': Files, path: string)
    requires Settled(files, path) && Torn(Lookup(files, path), Lookup(files', path))
    ensures Lookup(files', path) == Lookup(files, path)
  {
    if path in files {
      assert files'[path].bytes == files[path].bytes;
    }
  }

  /** In the `k`-th state the file is whole: absent, the one at the start, or the payload of an earlier write. */
  ghost predicate WholeAt(fs: seq<Files>, hs: seq<Happening>, path: string, k: nat)
    requires |fs| == |hs| + 1 && k <= |hs|
  {
    && Settled(fs[k], path)
    && (path in fs[k] ==>
          || Lookup(fs[k], path) == Lookup(fs[0], path)
          || exists j :: 0 <= j < k && hs[j] == Wrote(fs[k][path].bytes))
  }

  lemma CrashHasSource(fs: seq<Files>, hs: seq<Happening>, path: string, k: nat) returns (j: nat)
    requires Course(fs, hs, path) && k < |hs| && hs[k].Crashed?
    ensures j <= k && Torn(Lookup(fs[j], path), Lookup(fs[k + 1], path))
  {
    var since := LastSync(hs, k);
    var states := fs[since..k + 1];
    var i :| 0 <= i < |states| && Torn(Lookup(states[i], path), Lookup(fs[k + 1], path));
    j := since + i;
  }

  lemma RestoredIsWhole(fs: seq<Files>, hs: seq<Happening>, path: string, j: nat, k: nat)
    requires |fs| == |hs| + 1 && j <= k <= |hs| && WholeAt(fs, hs, path, j)
    requires Torn(Lookup(fs[j], path), Lookup(fs[k], path))
    ensures WholeAt(fs, hs, path, k)
  {
    TornWhole(fs[j], fs[k], path);
  }

  lemma StepIsWhole(fs: seq<Files>, hs: seq<Happening>, path: string, k: nat)
    requires |fs| == |hs| + 1 && k < |hs| && WholeAt(fs, hs, path, k)
    requires Happens(fs[k], hs[k], fs[k + 1], path) && !hs[k].Crashed?
    ensures WholeAt(fs, hs, path, k + 1)
  {
  }

  // Through any number of interrupted writes, removals, syncs and crashes that lose unsynced bytes and undo
  // unsynced renames, a reader of the canonical path sees nothing, the whole file it started with, or
  // the whole payload of one of the writes.
  lemma {:induction false} ReaderSeesWholePayloads(fs: seq<Files>, hs: seq<Happening>, path: string, k: nat)
    requires Course(fs, hs, path) && Settled(fs[0], path) && k <= |hs|
    ensures WholeAt(fs, hs, path, k)
  {
    if k > 0 {
      assert Happens(fs[k - 1], hs[k - 1], fs[k], path);
      hide WholeAt, Happens, Torn, Course, Settled;
      if hs[k - 1].Crashed? {
        var j := CrashHasSource(fs, hs, path, k - 1);
        ReaderSeesWholePayloads(fs, hs, path, j);
        RestoredIsWhole(fs, hs, path, j, k);
      } else {
        ReaderSeesWholePayloads(fs, hs, path, k - 1);
        StepIsWhole(fs, hs, path, k - 1);
      }
    }
  }

  /** The directory's entries now survive a crash: it has been synced, or read back after one. */
  predicate Fixes(h: Happening) {
    h.SyncedDir? || h.Crashed?
  }

  lemma {:induction false} SyncedSince(hs: seq<Happening>, k: nat, n: nat)
    requires k <= n <= |hs|
    ensures LastSync(hs, n) > k <==> exists j :: k <= j < n && Fixes(hs[j])
    decreases n
  {
    if n > k && !Fixes(hs[n - 1]) {
      SyncedSince(hs, k, n - 1);
    }
  }

  lemma WholeIsSettled(files: Files, path: string, payload: Bytes)
    requires Lookup(files, path) == Some(Whole(payload))
    ensures Settled(files, path)
  {
  }

  lemma WholeIsTorn(fs: seq<Files>, hs: seq<Happening>, path: string, k: nat)
    requires |fs| == |hs| + 1 && k <= |hs| && WholeAt(fs, hs, path, k)
    ensures Torn(Lookup(fs[k], path), Lookup(fs[k], path))
  {
  }

  // In states that all have the payload whole, a crash leaves it so.
  lemma SyncedSurvives(states: seq<Files>, files': Files, path: string, payload: Bytes)
    requires forall i | 0 <= i < |states| :: Lookup(states[i], path) == Some(Whole(payload))
    requires CrashFrom(states, files', path)
    ensures Lookup(files', path) == Some(Whole(payload))
  {
    var i :| 0 <= i < |states| && Torn(Lookup(states[i], path), Lookup(files', path));
    hide Torn, Settled, Lookup, Whole;
    WholeIsSettled(states[i], path, payload);
    TornWhole(states[i], files', path);
  }

  // The state before the write is one that a crash may restore if it is still among them.
  lemma UnsyncedIsUndone(fs: seq<Files>, hs: seq<Happening>, path: string, since: nat, k: nat)
    requires Course(fs, hs, path) && Settled(fs[0], path) && since <= k < |hs|
    ensures CrashFrom(fs[since..], fs[k], path)
  {
    hide Course, Torn, WholeAt, Lookup, Settled;
    ReaderSeesWholePayloads(fs, hs, path, k);
    assert |fs| == |hs| + 1 by { CourseLength(fs, hs, path); }
    WholeIsTorn(fs, hs, path, k);
    assert fs[since..][k - since] == fs[k];
  }

  lemma CourseLength(fs: seq<Files>, hs: seq<Happening>, path: string)
    requires Course(fs, hs, path)
    ensures |fs| == |hs| + 1
  {
  }

  // A payload published by the `k`-th happening, and not written over or removed since, is there after every
  // crash that may now follow exactly when the directory has been synced, or read back after a crash,
  // in between.
  lemma WriteSurvivesIffSynced(fs: seq<Files>, hs: seq<Happening>, path: string, payload: Bytes, k: nat)
    requires Course(fs, hs, path) && Settled(fs[0], path) && k < |hs| && hs[k] == Wrote(payload)
    requires Lookup(fs[k], path) != Some(Whole(payload))
    requires forall j | k < j <= |hs| :: Lookup(fs[j], path) == Some(Whole(payload))
    ensures (forall files' :: CrashFrom(fs[LastSync(hs, |hs|)..], files', path) ==>
                                Lookup(files', path) == Some(Whole(payload)))
       <==> exists j :: k < j < |hs| && Fixes(hs[j])
  {
    hide Course, CrashFrom, Settled, LastSync, Lookup, Whole;
    CourseLength(fs, hs, path);
    var since := LastSync(hs, |hs|);
    SyncedSince(hs, k, |hs|);
    if since > k {
      forall files' | CrashFrom(fs[since..], files', path)
        ensures Lookup(files', path) == Some(Whole(payload))
      {
        SyncedSurvives(fs[since..], files', path, payload);
      }
    } else {
      UnsyncedIsUndone(fs, hs, path, since, k);
    }
  }
}
