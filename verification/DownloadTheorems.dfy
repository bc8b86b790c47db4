/**
 What the downloader guarantees over any sequence of runs: `Downloader.Run` is proved
 to return `Outcome`, to leave a disk allowed by `Leaves`, and to pass only through
 disks allowed by `Passes`, so a run that dies anywhere leaves one of those.
 */
module DownloadTheorems {
  import opened Wrappers
  import opened Hexadecimal
  import opened Download

  // ---- The checksum gate ----------------------------------------------------------------------

  /** The manifest's checksum spells `genuine`, in either case of letters. */
  ghost predicate Names(m: Manifest, genuine: Bytes) {
    Spells(m.sha256, genuine)
  }

  // The gate, which prints the digest and compares text, opens exactly for content with the digest that
  // the manifest's checksum spells.
  lemma MatchesExactly(m: Manifest, digest: Bytes -> Bytes, genuine: Bytes, content: Bytes)
    requires Names(m, genuine)
    ensures HexLower(digest(content)) == Lower(m.sha256) <==> digest(content) == genuine
    ensures Matches(m, digest, content) <==> digest(content) == genuine
  {
    ComparedExactly(m.sha256, digest(content));
    hide Spells;
    if Matches(m, digest, content) {
      SpelledIsUnique(m.sha256, digest(content), genuine);
    }
  }

  // ---- Safety -----------------------------------------------------------------------------------

  ghost predicate Sound(m: Manifest, digest: Bytes -> Bytes, d: Disk) {
    d.final.Some? ==> Matches(m, digest, d.final.value)
  }

  lemma RunKeepsSound(m: Manifest, digest: Bytes -> Bytes, d: Disk, a: Attempt, d': Disk)
    requires Sound(m, digest, d) && Passes(m, digest, d, a, d')
    ensures Sound(m, digest, d')
    ensures d.final.Some? ==> d' == d
  {
    hide ValidateHead, BodyFlow, Matches;
  }

  /** Any runs, one after another, each left to finish or killed at any step. */
  ghost predicate Course(m: Manifest, digest: Bytes -> Bytes, ds: seq<Disk>, runs: seq<Attempt>) {
    |ds| == |runs| + 1 && forall k | 0 <= k < |runs| :: Passes(m, digest, ds[k], runs[k], ds[k + 1])
  }

  // Whatever the server does and however often the program dies, the model file is never there with a
  // digest other than the manifest's; and once there, it is never touched again.
  lemma {:induction false} InstalledIsGenuine(m: Manifest, digest: Bytes -> Bytes, ds: seq<Disk>, runs: seq<Attempt>,
                                              k: nat, genuine: Bytes)
    requires Course(m, digest, ds, runs) && Sound(m, digest, ds[0]) && Names(m, genuine) && k <= |runs|
    ensures Sound(m, digest, ds[k])
    ensures ds[k].final.Some? ==> digest(ds[k].final.value) == genuine
    ensures forall j | 0 <= j <= k && ds[j].final.Some? :: ds[k] == ds[j]
  {
    if k > 0 {
      InstalledIsGenuine(m, digest, ds, runs, k - 1, genuine);
      assert Passes(m, digest, ds[k - 1], runs[k - 1], ds[k]);
      RunKeepsSound(m, digest, ds[k - 1], runs[k - 1], ds[k]);
    }
    hide Passes, Sound, Names, Matches;
    if ds[k].final.Some? {
      assert Matches(m, digest, ds[k].final.value) by { SoundMatches(m, digest, ds[k]); }
      MatchesExactly(m, digest, genuine, ds[k].final.value);
    }
  }

  lemma SoundMatches(m: Manifest, digest: Bytes -> Bytes, d: Disk)
    requires Sound(m, digest, d) && d.final.Some?
    ensures Matches(m, digest, d.final.value)
  {
  }

  // ---- Resume refines a single download ----------------------------------------------------------

  /** `body` is the model the manifest describes. */
  ghost predicate Describes(m: Manifest, digest: Bytes -> Bytes, body: Bytes) {
    m.size == |body| && Matches(m, digest, body)
  }

  /**
     Asked for the bytes from `offset` on, the server sends those, in any pieces; a
     stream that reaches its end has sent all.
   */
  ghost predicate HonoursRange(body: Bytes, offset: nat, a: Attempt) {
    offset <= |body| ==>
      var drained := Drain(a.arrivals, 0);
      drained.0 <= body[offset..] && (drained.1.AtEof? ==> drained.0 == body[offset..])
  }

  /** What is on disk is the beginning of the body, or all of it. */
  ghost predicate Tracks(body: Bytes, d: Disk) {
    (d.part.Some? ==> d.part.value <= body) && (d.final.Some? ==> d.final.value == body)
  }

  lemma GrowthTracks(body: Bytes, d: Disk, d': Disk, received: Bytes)
    requires Tracks(body, d) && PartGrew(d, d', received) && received <= body[|Held(d)|..]
    ensures Tracks(body, d') && |Held(d)| <= |Held(d')|
  {
    assert Held(d) + received <= Held(d) + body[|Held(d)|..] == body;
  }

  lemma ContentTracks(m: Manifest, digest: Bytes -> Bytes, body: Bytes, d: Disk, a: Attempt)
    requires Describes(m, digest, body) && Tracks(body, d) && HonoursRange(body, |Held(d)|, a)
    requires Judges(FlowOf(m, d, a))
    ensures Content(d, FlowOf(m, d, a)) == body
  {
    hide ValidateHead, ValidateReply, Drain, Matches;
    assert Held(d) + body[|Held(d)|..] == body;
  }

  lemma StreamTracks(m: Manifest, digest: Bytes -> Bytes, body: Bytes, d: Disk, a: Attempt)
    requires Describes(m, digest, body) && Tracks(body, d) && HonoursRange(body, |Held(d)|, a)
    requires FlowOf(m, d, a).Stream?
    ensures FlowOf(m, d, a).received <= body[|Held(d)|..]
  {
    hide ValidateHead, ValidateReply, Drain, Matches;
  }

  // Every disk a run may leave or be killed on still tracks the body, with no byte of progress lost.
  lemma RunKeepsTracking(m: Manifest, digest: Bytes -> Bytes, body: Bytes, d: Disk, a: Attempt, d': Disk)
    requires Describes(m, digest, body) && Tracks(body, d) && HonoursRange(body, |Held(d)|, a)
    requires Passes(m, digest, d, a, d')
    ensures Tracks(body, d')
    ensures d'.final.None? ==> |Held(d)| <= |Held(d')|
  {
    var f := FlowOf(m, d, a);
    if Judges(f) {
      ContentTracks(m, digest, body, d, a);
    }
    if f.Stream? {
      StreamTracks(m, digest, body, d, a);
      if PartGrew(d, d', f.received) {
        GrowthTracks(body, d, d', f.received);
      }
    }
    hide FlowOf, PartGrew, HonoursRange, Matches;
  }

  /** Nothing outside stops the run: both replies are good, local calls succeed, the stream reaches its end. */
  predicate Uninterrupted(m: Manifest, a: Attempt) {
    && ValidateHead(a.head, m.size).None? && !a.cancelledEarly && a.dirMade && a.resumeRead
    && ValidateReply(a.get).None? && a.partOpened && Drain(a.arrivals, 0).1.AtEof? && a.finalFlush
    && a.renamed && a.removed
  }

  lemma UninterruptedJudges(m: Manifest, d: Disk, a: Attempt)
    requires Uninterrupted(m, a) && d.final.None?
    ensures Judges(FlowOf(m, d, a))
    ensures FlowOf(m, d, a) == if |Held(d)| >= m.size then SkipGet else Stream(Drain(a.arrivals, 0).0, AtEof)
  {
    hide ValidateHead, ValidateReply, Drain;
  }

  // The first run whose stream reaches its end installs exactly the body, from however much was there.
  // The one exception is a model of no bytes with no `.part`, which leaves nothing to rename.
  lemma CompletedRunInstalls(m: Manifest, digest: Bytes -> Bytes, body: Bytes, d: Disk, a: Attempt, d': Disk)
    requires Describes(m, digest, body) && Tracks(body, d) && HonoursRange(body, |Held(d)|, a)
    requires Uninterrupted(m, a) && Leaves(m, digest, d, a, d')
    ensures Outcome(m, digest, d, a) == Installed <==> body != [] || d.part.Some? || d.final.Some?
    ensures Outcome(m, digest, d, a) == Installed ==> d'.final == Some(body)
  {
    if d.final.None? {
      UninterruptedJudges(m, d, a);
      ContentTracks(m, digest, body, d, a);
    }
    hide Uninterrupted, HonoursRange, Matches, BodyFlow, ValidateHead;
  }

  // Over any number of cancelled, stalled, failed or killed runs, `.part` stays a prefix of the body, and
  // the run that completes installs the very file a single download would have.
  lemma {:induction false} ResumeRefinesOneShot(m: Manifest, digest: Bytes -> Bytes, body: Bytes, ds: seq<Disk>,
                                                runs: seq<Attempt>, k: nat)
    requires Describes(m, digest, body) && body != [] && Course(m, digest, ds, runs) && Tracks(body, ds[0])
    requires forall j | 0 <= j < |runs| :: HonoursRange(body, |Held(ds[j])|, runs[j])
    requires k < |runs|
    ensures Tracks(body, ds[k])
    ensures Uninterrupted(m, runs[k]) && Leaves(m, digest, ds[k], runs[k], ds[k + 1]) ==>
              Outcome(m, digest, ds[k], runs[k]) == Installed && ds[k + 1].final == Some(body)
  {
    if k > 0 {
      ResumeRefinesOneShot(m, digest, body, ds, runs, k - 1);
      assert Passes(m, digest, ds[k - 1], runs[k - 1], ds[k]);
      hide Passes, HonoursRange, Tracks, Uninterrupted, Leaves, Outcome;
      RunKeepsTracking(m, digest, body, ds[k - 1], runs[k - 1], ds[k]);
    }
    hide Passes, HonoursRange, Tracks, Uninterrupted, Leaves, Outcome;
    if Uninterrupted(m, runs[k]) && Leaves(m, digest, ds[k], runs[k], ds[k + 1]) {
      CompletedRunInstalls(m, digest, body, ds[k], runs[k], ds[k + 1]);
    }
  }

  // ---- Self-healing ---------------------------------------------------------------------------------

  /** No other content has the body's digest. */
  ghost predicate CollisionFree(digest: Bytes -> Bytes, body: Bytes) {
    forall x :: digest(x) == digest(body) ==> x == body
  }

  lemma OnlyTheBodyMatches(m: Manifest, digest: Bytes -> Bytes, body: Bytes, content: Bytes)
    requires Describes(m, digest, body) && CollisionFree(digest, body)
    ensures Matches(m, digest, content) <==> content == body
  {
    MatchesExactly(m, digest, digest(body), content);
  }

  // What an uninterrupted run makes of anything at all in `.part`: it installs exactly from a prefix of the
  // body, and otherwise fails its checksum and removes it.
  lemma FirstRunJudges(m: Manifest, digest: Bytes -> Bytes, body: Bytes, d: Disk, a: Attempt, d': Disk)
    requires Describes(m, digest, body) && CollisionFree(digest, body) && body != [] && d.final.None?
    requires HonoursRange(body, |Held(d)|, a) && Uninterrupted(m, a) && Leaves(m, digest, d, a, d')
    ensures Outcome(m, digest, d, a) == Installed <==> Held(d) <= body
    ensures Held(d) <= body ==> d' == Disk(None, Some(body))
    ensures !(Held(d) <= body) ==> Outcome(m, digest, d, a) == Failed(ChecksumMismatch) && d' == Disk(None, None)
  {
    UninterruptedJudges(m, d, a);
    var content := Content(d, FlowOf(m, d, a));
    OnlyTheBodyMatches(m, digest, body, content);
    if |Held(d)| < |body| {
      assert content == Held(d) + body[|Held(d)|..];
      assert content[..|Held(d)|] == Held(d);
      assert Held(d) <= body ==> content == body;
    } else {
      assert Held(d) <= body <==> Held(d) == body;
    }
    hide HonoursRange, Matches, BodyFlow, ValidateHead, CollisionFree, FlowOf, Uninterrupted;
  }

  // Two uninterrupted runs install the body from any `.part` of any length; a wrong or oversized one costs
  // exactly one checksum failure.
  lemma SelfHeals(m: Manifest, digest: Bytes -> Bytes, body: Bytes,
                  d: Disk, a: Attempt, d1: Disk, a': Attempt, d2: Disk)
    requires Describes(m, digest, body) && CollisionFree(digest, body) && body != [] && d.final.None?
    requires HonoursRange(body, |Held(d)|, a) && Uninterrupted(m, a) && Leaves(m, digest, d, a, d1)
    requires HonoursRange(body, |Held(d1)|, a') && Uninterrupted(m, a') && Leaves(m, digest, d1, a', d2)
    ensures d2 == Disk(None, Some(body)) && Outcome(m, digest, d1, a') == Installed
    ensures Outcome(m, digest, d, a) == if Held(d) <= body then Installed else Failed(ChecksumMismatch)
  {
    FirstRunJudges(m, digest, body, d, a, d1);
    if Held(d) <= body {
      InstalledStays(m, digest, d1, a', d2);
    } else {
      FirstRunJudges(m, digest, body, d1, a', d2);
    }
    hide HonoursRange, Matches, CollisionFree, Outcome, Uninterrupted, Leaves, Describes;
  }

  lemma InstalledStays(m: Manifest, digest: Bytes -> Bytes, d: Disk, a: Attempt, d': Disk)
    requires d.final.Some? && Leaves(m, digest, d, a, d')
    ensures Outcome(m, digest, d, a) == Installed && d' == d
  {
  }

  // A server that ignores the range and sends the whole body each time: the run installs exactly when
  // nothing, or everything, was there. Anything else is glued to a second copy, fails and is removed.
  lemma IgnoredRangeIsCaught(m: Manifest, digest: Bytes -> Bytes, body: Bytes, d: Disk, a: Attempt, d': Disk)
    requires Describes(m, digest, body) && CollisionFree(digest, body) && body != [] && d.final.None?
    requires Drain(a.arrivals, 0) == (body, AtEof) && Uninterrupted(m, a) && Leaves(m, digest, d, a, d')
    ensures Outcome(m, digest, d, a) == Installed <==> Held(d) == [] || Held(d) == body
    ensures Outcome(m, digest, d, a) != Installed ==>
              Outcome(m, digest, d, a) == Failed(ChecksumMismatch) && d' == Disk(None, None)
  {
    UninterruptedJudges(m, d, a);
    var content := Content(d, FlowOf(m, d, a));
    OnlyTheBodyMatches(m, digest, body, content);
    assert |Held(d)| < |body| ==> |content| == |Held(d)| + |body|;
    assert Held(d) == [] ==> content == [] + body;
    hide Matches, BodyFlow, ValidateHead, CollisionFree, FlowOf, Uninterrupted, Drain;
  }
}
