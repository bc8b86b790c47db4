/**
 `ModelDownloader` of `crates/zwhisper-settings/src/download.rs` as it runs: the
 rolling hash is the bytes fed to it so far, and the open `.part` file may hold back
 bytes it was handed until it is flushed. The downloader remembers every state its
 files have been in, since the process may die in any of them.
 */
module ModelDownloader {
  import opened Wrappers
  import opened Hexadecimal
  import opened Download

  datatype StreamOutcome = Completed | StreamCancelled

  /** Every recorded state from the `n`-th on is `d`, or `d` with some of `received` appended. */
  ghost predicate GrownSince(h: seq<Disk>, n: nat, d: Disk, received: Bytes) {
    forall k | n <= k < |h| :: h[k] == d || PartGrew(d, h[k], received)
  }

  ghost predicate StillSince(h: seq<Disk>, n: nat, d: Disk) {
    forall k | n <= k < |h| :: h[k] == d
  }

  lemma GrownSnoc(h: seq<Disk>, n: nat, d: Disk, received: Bytes, d': Disk)
    requires GrownSince(h, n, d, received) && (d' == d || PartGrew(d, d', received))
    ensures GrownSince(h + [d'], n, d, received)
  {
  }

  // Whatever part of what was handed over has reached the file, the file has grown by received bytes.
  lemma ReachedSoFar(d: Disk, now: Disk, pending: Bytes, handed: Bytes, received: Bytes)
    requires now.final == d.final && now.part.Some? && Held(d) <= now.part.value
    requires now.part.value + pending == Held(d) + handed && handed <= received
    ensures PartGrew(d, now, received)
  {
    assert now.part.value <= Held(d) + handed;
    assert Held(d) + handed <= Held(d) + received;
  }

  lemma NothingRecorded(h: seq<Disk>, d: Disk)
    ensures StillSince(h, |h|, d) && forall received :: GrownSince(h, |h|, d, received)
  {
  }

  // ---- How a run may end -------------------------------------------------------------------

  lemma EarlyEnd(m: Manifest, digest: Bytes -> Bytes, d: Disk, a: Attempt)
    requires FlowOf(m, d, a).NoStream?
    ensures Outcome(m, digest, d, a) == FlowOf(m, d, a).end && Leaves(m, digest, d, a, d)
  {
    hide FlowOf, Matches;
  }

  lemma InterruptedEnd(m: Manifest, digest: Bytes -> Bytes, d: Disk, a: Attempt, d': Disk)
    requires var f := FlowOf(m, d, a);
             && f.Stream? && !f.stop.AtEof? && PartGrew(d, d', f.received)
             && (f.stop == ByCancel(true) ==> d'.part == Some(Held(d) + f.received))
    ensures var stop := FlowOf(m, d, a).stop;
            Outcome(m, digest, d, a) == if stop.ByCancel? then Cancelled else Failed(stop.reason)
    ensures Leaves(m, digest, d, a, d')
  {
    hide FlowOf, Matches, PartGrew;
  }

  /** What judging the content held in `mid` does. */
  ghost predicate Judged(m: Manifest, digest: Bytes -> Bytes, a: Attempt, mid: Disk, content: Bytes,
                         r: DownloadState, d': Disk) {
    if !Matches(m, digest, content) then
      r == Failed(ChecksumMismatch) && d' == mid.(part := if a.removed then None else mid.part)
    else if a.renamed && mid.part.Some? then r == Installed && d' == Disk(None, mid.part)
    else r == Failed(Io) && d' == mid
  }

  lemma JudgedEnd(m: Manifest, digest: Bytes -> Bytes, d: Disk, a: Attempt, mid: Disk, r: DownloadState, d': Disk)
    requires var f := FlowOf(m, d, a);
             && Judges(f) && Judged(m, digest, a, mid, Content(d, f), r, d')
             && mid == if f.SkipGet? then d else d.(part := Some(Content(d, f)))
    ensures Outcome(m, digest, d, a) == r && Leaves(m, digest, d, a, d')
  {
    hide FlowOf, Matches;
  }

  // The states recorded while streaming are among those a crash may leave.
  lemma RecordedPass(m: Manifest, digest: Bytes -> Bytes, d: Disk, a: Attempt, h: seq<Disk>, n: nat)
    requires var f := FlowOf(m, d, a);
             if f.Stream? then GrownSince(h, n, d, f.received) else StillSince(h, n, d)
    ensures forall k | n <= k < |h| :: Passes(m, digest, d, a, h[k])
  {
    hide FlowOf, Leaves;
  }

  lemma DrainEnd(arrivals: seq<Arrival>, sinceFlush: nat)
    ensures Drain(arrivals[|arrivals|..], sinceFlush) == ([], AtEof)
  {
  }

  predicate ChunkFails(arrival: Arrival, sinceFlush: nat)
    requires arrival.Chunk?
  {
    !arrival.written || (sinceFlush + |arrival.data| >= FLUSH_CHUNK_BYTES && !arrival.flushed)
  }

  function SinceFlush(arrival: Arrival, sinceFlush: nat): nat
    requires arrival.Chunk?
  {
    if sinceFlush + |arrival.data| >= FLUSH_CHUNK_BYTES then 0 else sinceFlush + |arrival.data|
  }

  // One turn of the loop that takes a chunk, as `Drain` sees it.
  lemma ChunkStep(arrivals: seq<Arrival>, i: nat, sinceFlush: nat, handed: Bytes, received: Bytes)
    requires i < |arrivals| && arrivals[i].Chunk? && arrivals[i].data != []
    requires received == handed + Drain(arrivals[i..], sinceFlush).0
    ensures handed + arrivals[i].data <= received
    ensures ChunkFails(arrivals[i], sinceFlush) ==> Drain(arrivals[i..], sinceFlush).1 == ByFailure(Io)
    ensures !ChunkFails(arrivals[i], sinceFlush) ==>
              var rest := Drain(arrivals[i + 1..], SinceFlush(arrivals[i], sinceFlush));
              received == handed + arrivals[i].data + rest.0 && Drain(arrivals[i..], sinceFlush).1 == rest.1
  {
    assert arrivals[i..][0] == arrivals[i] && arrivals[i..][1..] == arrivals[i + 1..];
    var rest := Drain(arrivals[i + 1..], SinceFlush(arrivals[i], sinceFlush)).0;
    assert handed + (arrivals[i].data + rest) == handed + arrivals[i].data + rest;
  }

  // Nothing follows an interruption, and an empty chunk is passed over.
  lemma OtherStep(arrivals: seq<Arrival>, i: nat, sinceFlush: nat)
    requires i < |arrivals|
    ensures !arrivals[i].Chunk? ==> Drain(arrivals[i..], sinceFlush) == ([], Drain([arrivals[i]], 0).1)
    ensures arrivals[i].Chunk? && arrivals[i].data == [] ==>
              Drain(arrivals[i..], sinceFlush) == Drain(arrivals[i + 1..], sinceFlush)
  {
    assert arrivals[i..][0] == arrivals[i] && arrivals[i..][1..] == arrivals[i + 1..];
  }

  // ---- What is reported on the way ------------------------------------------------------------

  /** From the `n`-th state on, progress is out of `size` bytes and never goes back. */
  ghost predicate Climbs(sent: seq<DownloadState>, n: nat, size: nat) {
    && (forall k | n <= k < |sent| && sent[k].Fetching? :: sent[k].total == size)
    && (forall j, k | n <= j < k < |sent| && sent[j].Fetching? && sent[k].Fetching? ::
          sent[j].bytesDone <= sent[k].bytesDone)
  }

  ghost predicate ClimbsTo(sent: seq<DownloadState>, n: nat, size: nat, top: nat) {
    Climbs(sent, n, size) && forall k | n <= k < |sent| && sent[k].Fetching? :: sent[k].bytesDone <= top
  }

  lemma Climbed(sent: seq<DownloadState>, n: nat, size: nat, top: nat, state: DownloadState)
    requires ClimbsTo(sent, n, size, top)
    requires state.Fetching? ==> state.total == size && top <= state.bytesDone
    ensures ClimbsTo(sent + [state], n, size, if state.Fetching? then state.bytesDone else top)
  {
  }

  /** The last three states: all there is has come in, it is being verified, and the verdict. */
  ghost predicate EndsJudged(sent: seq<DownloadState>, bytesDone: nat, size: nat, r: DownloadState) {
    |sent| >= 3 && sent[|sent| - 3..] == [Fetching(bytesDone, size), Verifying, r]
  }

  /** A run that had sent `before` has come to `r`: that is sent last, and progress has not gone back. */
  ghost predicate Reports(before: seq<DownloadState>, sent: seq<DownloadState>, size: nat, r: DownloadState) {
    before < sent && sent[|sent| - 1] == r && Climbs(sent, |before|, size)
  }

  lemma StartsToClimb(before: seq<DownloadState>, done: nat, size: nat)
    ensures var sent := before + [Resolving, Fetching(done, size)];
            && before < sent && sent[|sent| - 1] == Fetching(done, size) && sent[|before|] == Resolving
            && ClimbsTo(sent, |before|, size, done)
  {
  }

  lemma EarlyReports(before: seq<DownloadState>, size: nat, end: DownloadState)
    requires !end.Fetching?
    ensures Reports(before, before + [end], size, end) && Reports(before, before + [Resolving, end], size, end)
    ensures (before + [Resolving, end])[|before|] == Resolving
  {
  }

  lemma EndReports(before: seq<DownloadState>, sent: seq<DownloadState>, size: nat, top: nat, r: DownloadState)
    requires ClimbsTo(sent, |before|, size, top) && before < sent && !r.Fetching?
    ensures Reports(before, sent + [r], size, r) && (sent + [r])[|before|] == sent[|before|]
  {
  }

  lemma JudgedReports(before: seq<DownloadState>, sent: seq<DownloadState>, size: nat, top: nat, r: DownloadState)
    requires ClimbsTo(sent, |before|, size, top) && before < sent && sent[|sent| - 1] == Fetching(top, size)
    requires !r.Fetching? && |sent| > 0
    ensures Reports(before, sent + [Verifying, r], size, r) && EndsJudged(sent + [Verifying, r], top, size, r)
    ensures (sent + [Verifying, r])[|before|] == sent[|before|]
  {
  }

  lemma ClimbsHigher(sent: seq<DownloadState>, n: nat, size: nat, top: nat, top': nat)
    requires ClimbsTo(sent, n, size, top) && top <= top'
    ensures ClimbsTo(sent, n, size, top')
  {
  }

  class Downloader {
    const manifest: Manifest
    const digest: Bytes -> Bytes
    var part: Option<Bytes>
    var final: Option<Bytes>
    // handed to the open file and not yet in it
    var pending: Bytes
    var sent: seq<DownloadState>
    ghost var history: seq<Disk>

    ghost function View(): Disk
      reads this
    {
      Disk(part, final)
    }

    ghost predicate Valid()
      reads this
    {
      history != [] && history[|history| - 1] == View()
    }

    constructor (manifest: Manifest, digest: Bytes -> Bytes, part: Option<Bytes>, final: Option<Bytes>)
      ensures Valid() && View() == Disk(part, final) && pending == [] && sent == []
      ensures this.manifest == manifest && this.digest == digest
    {
      this.manifest, this.digest := manifest, digest;
      this.part, this.final := part, final;
      pending, sent := [], [];
      history := [Disk(part, final)];
    }

    // ---- The calls into the file system ----------------------------------------------------

    method OpenForAppend(ok: bool)
      requires Valid() && pending == []
      modifies `part, `history
      ensures Valid() && history == old(history) + [View()]
      ensures part == if ok && old(part).None? then Some([]) else old(part)
    {
      if ok && part.None? {
        part := Some([]);
      }
      history := history + [View()];
    }

    /** Hands `data` to the file; some of what it holds back may reach it. */
    method WriteAll(data: Bytes)
      requires Valid() && part.Some?
      modifies `part, `pending, `history
      ensures Valid() && history == old(history) + [View()]
      ensures part.Some? && old(part).value <= part.value
      ensures part.value + pending == old(part).value + old(pending) + data
    {
      ghost var all := part.value + pending + data;
      var held := pending + data;
      var n: nat :| n <= |held|;
      assert held == held[..n] + held[n..];
      part := Some(part.value + held[..n]);
      pending := held[n..];
      assert part.value + pending == old(part).value + held;
      history := history + [View()];
    }

    method Flush(ok: bool)
      requires Valid() && part.Some?
      modifies `part, `pending, `history
      ensures Valid() && history == old(history) + [View()]
      ensures part.Some? && old(part).value <= part.value
      ensures part.value + pending == old(part).value + old(pending)
      ensures ok ==> pending == []
    {
      if ok {
        part, pending := Some(part.value + pending), [];
      }
      history := history + [View()];
    }

    /** The file is dropped; what it held back may be lost. */
    method DropFile()
      requires Valid() && part.Some?
      modifies `part, `pending, `history
      ensures Valid() && history == old(history) + [View()]
      ensures part.Some? && old(part).value <= part.value <= old(part).value + old(pending)
      ensures pending == []
    {
      var n: nat :| n <= |pending|;
      part, pending := Some(part.value + pending[..n]), [];
      history := history + [View()];
    }

    method RemovePart(ok: bool)
      requires Valid()
      modifies `part, `history
      ensures Valid() && history == old(history) + [View()]
      ensures part == if ok then None else old(part)
    {
      if ok {
        part := None;
      }
      history := history + [View()];
    }

    method FinaliseRename(ok: bool) returns (renamed: bool)
      requires Valid()
      modifies `part, `final, `history
      ensures Valid() && history == old(history) + [View()]
      ensures renamed == (ok && old(part).Some?)
      ensures View() == if renamed then Disk(None, old(part)) else old(View())
    {
      renamed := ok && part.Some?;
      if renamed {
        part, final := None, part;
      }
      history := history + [View()];
    }

    method Send(state: DownloadState)
      requires Valid()
      modifies `sent
      ensures Valid() && View() == old(View()) && sent == old(sent) + [state]
    {
      sent := sent + [state];
    }

    // ---- The run ----------------------------------------------------------------------------

    /** Re-hashes what is in `.part`, from the first byte. */
    method PrepareResume(readable: bool) returns (r: Result<(Bytes, nat), FailReason>)
      ensures part.None? ==> r == Ok(([], 0))
      ensures part.Some? ==> r == if readable then Ok((part.value, |part.value|)) else Err(Io)
    {
      var hasher: Bytes := [];
      var bytesDone := 0;
      if part.None? {
        return Ok((hasher, bytesDone));
      }
      while bytesDone < |part.value|
        invariant bytesDone <= |part.value| && hasher == part.value[..bytesDone]
      {
        var fails: bool := *;
        if fails && !readable {
          return Err(Io);
        }
        var n: nat :| 0 < n <= |part.value| - bytesDone && n <= FLUSH_CHUNK_BYTES by {
          assert 0 < 1 <= |part.value| - bytesDone && 1 <= FLUSH_CHUNK_BYTES;
        }
        assert part.value[..bytesDone] + part.value[bytesDone..bytesDone + n] == part.value[..bytesDone + n];
        hasher := hasher + part.value[bytesDone..bytesDone + n];
        bytesDone := bytesDone + n;
      }
      if !readable {
        return Err(Io);
      }
      assert part.value[..bytesDone] == part.value;
      r := Ok((hasher, bytesDone));
    }

    /**
       The streaming loop over the open file. `d` is the disk before the run, and
       `n` how many states had been recorded by then.
     */
    method StreamChunks(arrivals: seq<Arrival>, fed: Bytes, ghost d: Disk, ghost n: nat, ghost s: nat)
      returns (hasher: Bytes, bytesDone: nat, stop: Stop)
      requires Valid() && part == Some(fed) && pending == [] && fed == Held(d) && final == d.final
      requires n <= |history| && GrownSince(history, n, d, Drain(arrivals, 0).0)
      requires s <= |sent| && ClimbsTo(sent, s, manifest.size, |fed|)
      modifies `part, `pending, `history, `sent
      ensures Valid() && |old(history)| <= |history| && GrownSince(history, n, d, Drain(arrivals, 0).0)
      ensures old(sent) <= sent && ClimbsTo(sent, s, manifest.size, bytesDone)
      ensures stop == Drain(arrivals, 0).1 && part.Some?
      ensures stop.AtEof? ==> hasher == fed + Drain(arrivals, 0).0 && bytesDone == |hasher|
      ensures stop.AtEof? ==> fed <= part.value && part.value + pending == hasher
      ensures !stop.AtEof? ==> pending == [] && PartGrew(d, View(), Drain(arrivals, 0).0)
      ensures stop == ByCancel(true) ==> part.value == fed + Drain(arrivals, 0).0
    {
      hide Drain, GrownSince, PartGrew, Held, Valid, View, FLUSH_CHUNK_BYTES, ClimbsTo;
      ghost var received, why := Drain(arrivals, 0).0, Drain(arrivals, 0).1;
      var sinceFlush: nat, i := 0, 0;
      hasher, bytesDone := fed, |fed|;
      ghost var handed: Bytes := [];
      assert arrivals[0..] == arrivals;
      while i < |arrivals|
        invariant i <= |arrivals| && Valid() && |old(history)| <= |history| && GrownSince(history, n, d, received)
        invariant part.Some? && fed <= part.value && part.value + pending == fed + handed
        invariant old(sent) <= sent && ClimbsTo(sent, s, manifest.size, bytesDone)
        invariant hasher == fed + handed && bytesDone == |hasher|
        invariant received == handed + Drain(arrivals[i..], sinceFlush).0
        invariant why == Drain(arrivals[i..], sinceFlush).1
      {
        OtherStep(arrivals, i, sinceFlush);
        if !arrivals[i].Chunk? {
          stop := Interrupt(arrivals[i], n, d, handed, received);
          return;
        }
        var data := arrivals[i].data;
        if data != [] {
          ChunkStep(arrivals, i, sinceFlush, handed, received);
          var failed := PutChunk(data, arrivals[i].written, arrivals[i].flushed, sinceFlush, n, d, handed, received);
          if failed {
            return hasher, bytesDone, ByFailure(Io);
          }
          assert fed + handed + data == fed + (handed + data);
          handed := handed + data;
          hasher := hasher + data;
          ClimbsHigher(sent, s, manifest.size, bytesDone, bytesDone + |data|);
          bytesDone := bytesDone + |data|;
          sinceFlush := sinceFlush + |data|;
          if sinceFlush >= FLUSH_CHUNK_BYTES {
            sinceFlush := 0;
            Climbed(sent, s, manifest.size, bytesDone, Fetching(bytesDone, manifest.size));
            Send(Fetching(bytesDone, manifest.size));
          }
        }
        i := i + 1;
      }
      DrainEnd(arrivals, sinceFlush);
      stop := AtEof;
    }

    /** What ends the loop before the stream does. Only a cancel seen at the head of the loop flushes. */
    method Interrupt(arrival: Arrival, ghost n: nat, ghost d: Disk, ghost handed: Bytes, ghost received: Bytes)
      returns (stop: Stop)
      requires Valid() && GrownSince(history, n, d, received) && !arrival.Chunk?
      requires final == d.final && part.Some? && Held(d) <= part.value
      requires part.value + pending == Held(d) + handed && handed <= received
      modifies `part, `pending, `history
      ensures Valid() && |old(history)| <= |history| && GrownSince(history, n, d, received)
      ensures part.Some? && pending == [] && PartGrew(d, View(), received)
      ensures stop == Drain([arrival], 0).1 && !stop.AtEof?
      ensures stop == ByCancel(true) ==> part.value == Held(d) + handed
    {
      hide GrownSince, PartGrew;
      match arrival {
        case CancelAtHead(flushed) =>
          ghost var h := history;
          Flush(flushed);
          Recorded(h, n, d, handed, received);
          if flushed {
            return ByCancel(true);
          }
          Abandon(n, d, handed, received);
          stop := ByFailure(Io);
        case CancelInSelect =>
          Abandon(n, d, handed, received);
          stop := ByCancel(false);
        case Broken =>
          Abandon(n, d, handed, received);
          stop := ByFailure(Network);
        case Stalled =>
          Abandon(n, d, handed, received);
          stop := ByFailure(Network);
      }
    }

    /** Writes one non-empty chunk, and flushes when enough has been written since the last flush. */
    method PutChunk(data: Bytes, written: bool, flushed: bool, sinceFlush: nat,
                    ghost n: nat, ghost d: Disk, ghost handed: Bytes, ghost received: Bytes)
      returns (failed: bool)
      requires Valid() && GrownSince(history, n, d, received)
      requires final == d.final && part.Some? && Held(d) <= part.value
      requires part.value + pending == Held(d) + handed && handed + data <= received
      modifies `part, `pending, `history
      ensures Valid() && |old(history)| <= |history| && GrownSince(history, n, d, received)
      ensures failed <==> !written || (sinceFlush + |data| >= FLUSH_CHUNK_BYTES && !flushed)
      ensures part.Some?
      ensures failed ==> pending == [] && PartGrew(d, View(), received)
      ensures !failed ==> Held(d) <= part.value && part.value + pending == Held(d) + (handed + data)
    {
      hide GrownSince, PartGrew;
      ghost var h := history;
      WriteAll(data);
      Recorded(h, n, d, handed + data, received);
      if !written {
        Abandon(n, d, handed + data, received);
        return true;
      }
      if sinceFlush + |data| >= FLUSH_CHUNK_BYTES {
        h := history;
        Flush(flushed);
        Recorded(h, n, d, handed + data, received);
        if !flushed {
          Abandon(n, d, handed + data, received);
          return true;
        }
      }
      failed := false;
    }

    // The state just recorded is one of those the run may pass through.
    lemma Recorded(h: seq<Disk>, n: nat, d: Disk, handed: Bytes, received: Bytes)
      requires GrownSince(h, n, d, received) && history == h + [View()]
      requires final == d.final && part.Some? && Held(d) <= part.value
      requires part.value + pending == Held(d) + handed && handed <= received
      ensures GrownSince(history, n, d, received)
      ensures PartGrew(d, View(), received)
    {
      ReachedSoFar(d, View(), pending, handed, received);
      GrownSnoc(h, n, d, received, View());
    }

    /** Leaves the loop without a flush. */
    method Abandon(ghost n: nat, ghost d: Disk, ghost handed: Bytes, ghost received: Bytes)
      requires Valid() && GrownSince(history, n, d, received)
      requires final == d.final && part.Some? && Held(d) <= part.value
      requires part.value + pending == Held(d) + handed && handed <= received
      modifies `part, `pending, `history
      ensures Valid() && |old(history)| <= |history| && GrownSince(history, n, d, received)
      ensures part.Some? && pending == [] && PartGrew(d, View(), received)
    {
      ghost var all := part.value + pending;
      DropFile();
      ReachedSoFar(d, View(), all[|part.value|..], handed, received);
      GrownSnoc(old(history), n, d, received, View());
    }

    /** Streams the body onto what is already there, unless that is long enough. */
    method StreamBody(a: Attempt, fed: Bytes, done: nat, ghost s: nat)
      returns (hasher: Bytes, bytesDone: nat, r: Result<StreamOutcome, FailReason>)
      requires Valid() && fed == Held(View()) && done == |fed| && pending == []
      requires s < |sent| && sent[|sent| - 1] == Fetching(done, manifest.size) && ClimbsTo(sent, s, manifest.size, done)
      modifies `part, `pending, `history, `sent
      ensures Valid() && |old(history)| <= |history| && pending == []
      ensures old(sent) <= sent && ClimbsTo(sent, s, manifest.size, bytesDone)
      ensures r == Ok(Completed) ==> sent[|sent| - 1] == Fetching(|hasher|, manifest.size) && bytesDone == |hasher|
      ensures var f := BodyFlow(manifest, old(View()), a);
              if f.Stream? then GrownSince(history, |old(history)|, old(View()), f.received)
              else StillSince(history, |old(history)|, old(View()))
      ensures var d := old(View());
              match BodyFlow(manifest, d, a)
              case SkipGet => r == Ok(Completed) && View() == d && hasher == fed
              case NoStream(end) => r == Err(end.reason) && View() == d
              case Stream(received, AtEof) =>
                r == Ok(Completed) && part == Some(hasher) && hasher == Held(d) + received
              case Stream(received, ByCancel(flushed)) =>
                && r == Ok(StreamCancelled) && PartGrew(d, View(), received)
                && (flushed ==> part == Some(Held(d) + received))
              case Stream(received, ByFailure(reason)) => r == Err(reason) && PartGrew(d, View(), received)
    {
      hide Drain, GrownSince, ValidateReply, ClimbsTo;
      ghost var d, n := View(), |history|;
      hasher, bytesDone := fed, done;
      NothingRecorded(history, d);
      if bytesDone >= manifest.size {
        return hasher, bytesDone, Ok(Completed);
      }
      var rejected := ValidateReply(a.get);
      if rejected.Some? {
        return hasher, bytesDone, Err(rejected.value);
      }
      ghost var received := Drain(a.arrivals, 0).0;
      ghost var h := history;
      OpenForAppend(a.partOpened);
      if !a.partOpened {
        return hasher, bytesDone, Err(Io);
      }
      GrownSnoc(h, n, d, received, View());
      var stop;
      hasher, bytesDone, stop := StreamChunks(a.arrivals, fed, d, n, s);
      match stop {
        case ByCancel(_) => r := Ok(StreamCancelled);
        case ByFailure(reason) => r := Err(reason);
        case AtEof =>
          h := history;
          Flush(a.finalFlush);
          Recorded(h, n, d, received, received);
          if !a.finalFlush {
            Abandon(n, d, received, received);
            return hasher, bytesDone, Err(Io);
          }
          assert part.value + [] == part.value;
          Climbed(sent, s, manifest.size, bytesDone, Fetching(bytesDone, manifest.size));
          Send(Fetching(bytesDone, manifest.size));
          r := Ok(Completed);
      }
    }

    /** Up to the moment the body is needed: what was found in `.part`, or how the run ended. */
    method Prelude(a: Attempt) returns (early: Option<DownloadState>, hasher: Bytes, bytesDone: nat)
      requires Valid()
      modifies `sent
      ensures Valid() && early == Early(manifest, View(), a)
      ensures early.None? ==> hasher == Held(View()) && bytesDone == |hasher|
      ensures early.Some? ==> !early.value.Fetching?
      ensures final.Some? ==> early == Some(Installed)
      ensures sent == old(sent) + (if final.Some? then [Installed]
                                   else if early.Some? then [Resolving, early.value]
                                   else [Resolving, Fetching(bytesDone, manifest.size)])
    {
      hide ValidateHead;
      early, hasher, bytesDone := None, [], 0;
      if final.Some? {
        early := Some(Installed);
      } else {
        Send(Resolving);
        var rejected := ValidateHead(a.head, manifest.size);
        if rejected.Some? {
          early := Some(Failed(rejected.value));
        } else if a.cancelledEarly {
          early := Some(Cancelled);
        } else if !a.dirMade {
          early := Some(Failed(Io));
        } else {
          var prepared := PrepareResume(a.resumeRead);
          if prepared.Err? {
            early := Some(Failed(prepared.error));
          } else {
            hasher, bytesDone := prepared.value.0, prepared.value.1;
          }
        }
      }
      if early.Some? {
        Send(early.value);
      } else {
        Send(Fetching(bytesDone, manifest.size));
      }
    }

    /** The last phase: compare, then drop a poisoned `.part` or rename a good one. */
    method Judge(a: Attempt, hasher: Bytes) returns (r: DownloadState)
      requires Valid()
      modifies `part, `final, `history, `sent
      ensures Valid() && history == old(history) + [View()]
      ensures Judged(manifest, digest, a, old(View()), hasher, r, View())
      ensures sent == old(sent) + [Verifying, r] && !r.Fetching?
    {
      hide HexLower, Lower, Spells;
      Send(Verifying);
      var actual := FormatHex(digest(hasher));
      ComparedExactly(manifest.sha256, digest(hasher));
      if actual != Lower(manifest.sha256) {
        RemovePart(a.removed);
        r := Failed(ChecksumMismatch);
      } else {
        var renamed := FinaliseRename(a.renamed);
        r := if renamed then Installed else Failed(Io);
      }
      Send(r);
    }

    /** The whole run: returns the state it sent last. */
    method Run(a: Attempt) returns (r: DownloadState)
      requires Valid() && pending == []
      modifies this
      ensures Valid() && pending == [] && |old(history)| <= |history|
      ensures r == Outcome(manifest, digest, old(View()), a)
      ensures Leaves(manifest, digest, old(View()), a, View())
      ensures forall k | |old(history)| <= k < |history| :: Passes(manifest, digest, old(View()), a, history[k])
      // what is reported: the state returned comes last, progress is out of the manifest's size and never
      // goes back, and what is judged has been reported in full
      ensures Reports(old(sent), sent, manifest.size, r) && |old(sent)| < |sent|
      ensures old(final).None? ==> sent[|old(sent)|] == Resolving
      ensures var f := FlowOf(manifest, old(View()), a);
              Judges(f) ==> EndsJudged(sent, |Content(old(View()), f)|, manifest.size, r)
    {
      hide Early, BodyFlow, Outcome, Leaves, PartGrew, Judged, GrownSince, StillSince;
      hide Climbs, ClimbsTo, EndsJudged;
      ghost var d, n := View(), |history|;
      NothingRecorded(history, d);
      ghost var reported := sent;
      var early, fed, done := Prelude(a);
      if early.Some? {
        EarlyEnd(manifest, digest, d, a);
        EarlyReports(reported, manifest.size, early.value);
        return early.value;
      }
      StartsToClimb(reported, done, manifest.size);
      var hasher, bytesDone, outcome := StreamBody(a, fed, done, |reported|);
      ghost var f := FlowOf(manifest, d, a);
      RecordedPass(manifest, digest, d, a, history, n);
      if outcome.Err? {
        r := Failed(outcome.error);
        EndReports(reported, sent, manifest.size, bytesDone, r);
        Send(r);
        if f.NoStream? {
          EarlyEnd(manifest, digest, d, a);
        } else {
          InterruptedEnd(manifest, digest, d, a, View());
        }
      } else if outcome.value.StreamCancelled? {
        r := Cancelled;
        EndReports(reported, sent, manifest.size, bytesDone, r);
        Send(r);
        InterruptedEnd(manifest, digest, d, a, View());
      } else {
        ghost var mid, streamed := View(), sent;
        r := Judge(a, hasher);
        JudgedReports(reported, streamed, manifest.size, bytesDone, r);
        JudgedEnd(manifest, digest, d, a, mid, r, View());
      }
    }
  }
}
