/**
 How a run of the downloader ends, read off the server's replies and the arrivals
 themselves: which replies are refused and why, where a stream stops, and when a run
 is cancelled.
 */
module DownloadEnds {
  import opened Wrappers
  import opened Hexadecimal
  import opened Download

  // ---- Media types -----------------------------------------------------------------------

  predicate AllBlank(s: string) {
    forall c | c in s :: c == ' ' || c == '\t'
  }

  /** `t` is the lower-case text `name`, in any case of letters. */
  predicate SaysName(t: string, name: string) {
    |t| == |name| && forall i | 0 <= i < |t| ::
      t[i] == name[i] || ('A' <= t[i] <= 'Z' && t[i] as int - 'A' as int == name[i] as int - 'a' as int)
  }

  predicate AllowedName(t: string) {
    || SaysName(t, "application/octet-stream")
    || SaysName(t, "application/x-binary")
    || SaysName(t, "binary/octet-stream")
  }

  /** A media type, blanks around it, then nothing or parameters. */
  ghost predicate TypeAndParameters(raw: string, before: string, t: string, after: string, parameters: string) {
    && raw == before + t + after + parameters && AllBlank(before) && AllBlank(after)
    && (parameters == "" || parameters[0] == ';')
  }

  ghost predicate AllowedType(raw: string) {
    exists before, t, after, parameters ::
      TypeAndParameters(raw, before, t, after, parameters) && AllowedName(t)
  }

  lemma {:induction false} SemicolonSplits(s: string)
    ensures ';' !in BeforeSemicolon(s) && BeforeSemicolon(s) <= s
    ensures var rest := s[|BeforeSemicolon(s)|..]; rest == "" || rest[0] == ';'
  {
    if s != "" && s[0] != ';' {
      SemicolonSplits(s[1..]);
      var rest := s[1..][|BeforeSemicolon(s[1..])|..];
      assert s[|BeforeSemicolon(s)|..] == rest;
      assert s == [s[0]] + s[1..];
    }
  }

  lemma {:induction false} CutsAtParameters(t: string, parameters: string)
    requires ';' !in t && (parameters == "" || parameters[0] == ';')
    ensures BeforeSemicolon(t + parameters) == t
  {
    var s := t + parameters;
    if t != "" {
      assert s[1..] == t[1..] + parameters;
      CutsAtParameters(t[1..], parameters);
      assert t == [t[0]] + t[1..];
    }
  }

  lemma {:induction false} StartIsTrimmed(s: string) returns (before: string)
    ensures s == before + TrimStart(s) && AllBlank(before)
    ensures TrimStart(s) != "" ==> !Blank(TrimStart(s)[0])
  {
    if s != "" && Blank(s[0]) {
      var rest := StartIsTrimmed(s[1..]);
      before := [s[0]] + rest;
      assert s == [s[0]] + s[1..];
    } else {
      before := "";
    }
  }

  lemma {:induction false} EndIsTrimmed(s: string) returns (after: string)
    ensures s == TrimEnd(s) + after && AllBlank(after)
  {
    if s != "" && Blank(s[|s| - 1]) {
      var rest := EndIsTrimmed(s[..|s| - 1]);
      after := rest + [s[|s| - 1]];
      assert s == s[..|s| - 1] + [s[|s| - 1]];
    } else {
      after := "";
      assert s == TrimEnd(s) + "";
    }
  }

  lemma {:induction false} TrimsStart(before: string, t: string)
    requires AllBlank(before) && t != "" && !Blank(t[0])
    ensures TrimStart(before + t) == t
  {
    if before == "" {
      assert before + t == t;
    } else {
      assert before[0] in before && (before + t)[1..] == before[1..] + t;
      assert forall c | c in before[1..] :: c in before;
      TrimsStart(before[1..], t);
    }
  }

  lemma {:induction false} TrimsEnd(t: string, after: string)
    requires AllBlank(after) && t != "" && !Blank(t[|t| - 1])
    ensures TrimEnd(t + after) == t
    decreases |after|
  {
    if after == "" {
      assert t + after == t;
    } else {
      var n := |after| - 1;
      assert after[n] in after && (t + after)[..|t| + n] == t + after[..n];
      assert forall c | c in after[..n] :: c in after;
      TrimsEnd(t, after[..n]);
    }
  }

  lemma LowerSaysName(t: string, name: string)
    requires forall i | 0 <= i < |name| :: !('A' <= name[i] <= 'Z')
    ensures SaysName(t, name) <==> Lower(t) == name
  {
    if SaysName(t, name) {
      forall i | 0 <= i < |t|
        ensures Lower(t)[i] == name[i]
      {
        LowerCharSays(t[i], name[i]);
      }
    }
    if Lower(t) == name {
      forall i | 0 <= i < |t|
        ensures t[i] == name[i] || ('A' <= t[i] <= 'Z' && t[i] as int - 'A' as int == name[i] as int - 'a' as int)
      {
        assert LowerChar(t[i]) == name[i];
      }
    }
  }

  lemma LowerCharSays(c: char, n: char)
    requires !('A' <= n <= 'Z')
    requires c == n || ('A' <= c <= 'Z' && c as int - 'A' as int == n as int - 'a' as int)
    ensures LowerChar(c) == n
  {
  }

  lemma AllowedAreListed(t: string)
    ensures AllowedName(t) <==> Lower(t) in ALLOWED_CONTENT_TYPES
  {
    LowerSaysName(t, "application/octet-stream");
    LowerSaysName(t, "application/x-binary");
    LowerSaysName(t, "binary/octet-stream");
    hide SaysName, Lower;
    var all := ALLOWED_CONTENT_TYPES;
    assert Lower(t) in all <==> Lower(t) == all[0] || Lower(t) == all[1] || Lower(t) == all[2];
  }

  /** Nothing in an allowed name is blank, or ends it. */
  lemma AllowedIsPlain(t: string)
    requires AllowedName(t)
    ensures t != "" && ';' !in t && !Blank(t[0]) && !Blank(t[|t| - 1])
  {
    var name := if SaysName(t, "application/octet-stream") then "application/octet-stream"
                else if SaysName(t, "application/x-binary") then "application/x-binary" else "binary/octet-stream";
    assert SaysName(t, name);
    NameIsPlain(name);
    assert name[0] in name && name[|name| - 1] in name;
    forall i | 0 <= i < |t|
      ensures t[i] != ';' && !Blank(t[i])
    {
      assert name[i] in name;
    }
  }

  lemma NameIsPlain(name: string)
    requires name in {"application/octet-stream", "application/x-binary", "binary/octet-stream"}
    ensures name != "" && forall c | c in name :: 'a' <= c <= 'z' || c == '/' || c == '-'
  {
  }

  lemma BlanksHaveNoSemicolon(s: string)
    requires AllBlank(s)
    ensures ';' !in s
  {
  }

  // A content type is allowed exactly when, blanks around it and parameters after it aside, it is one of the
  // three in any case of letters; an absent one is not.
  lemma AllowedTypesExactly(contentType: Option<string>)
    ensures ValidateContentType(contentType).None? <==> contentType.Some? && AllowedType(contentType.value)
    ensures ValidateContentType(contentType).Some? ==>
              ValidateContentType(contentType)
              == Some(ContentTypeMismatch(if contentType.Some? then contentType.value else ""))
  {
    var raw := if contentType.Some? then contentType.value else "";
    hide AllowedName, ALLOWED_CONTENT_TYPES, AllBlank, Lower, Blank;
    if contentType.None? {
      assert BareType("") == Lower("");
      AllowedAreListed("");
      assert !AllowedName("") by { NoNameIsEmpty(); }
      return;
    }
    var t := BareText(raw);
    AllowedAreListed(t);
    if AllowedType(raw) {
      var before, t', after, parameters :| TypeAndParameters(raw, before, t', after, parameters) && AllowedName(t');
      BareIsFound(raw, before, t', after, parameters);
    }
  }

  lemma NoNameIsEmpty()
    ensures !AllowedName("")
  {
  }

  // What is left of the header once parameters and blanks are cut.
  lemma BareText(raw: string) returns (t: string)
    ensures BareType(raw) == Lower(t) && t == TrimEnd(TrimStart(BeforeSemicolon(raw)))
    ensures exists before, after, parameters :: TypeAndParameters(raw, before, t, after, parameters)
  {
    hide Lower;
    var head := BeforeSemicolon(raw);
    SemicolonSplits(raw);
    var before := StartIsTrimmed(head);
    var after := EndIsTrimmed(TrimStart(head));
    t := TrimEnd(TrimStart(head));
    var parameters := raw[|head|..];
    assert raw == head + parameters && head == before + (t + after);
    assert raw == before + t + after + parameters;
    assert TypeAndParameters(raw, before, t, after, parameters);
  }

  lemma BareIsFound(raw: string, before: string, t: string, after: string, parameters: string)
    requires TypeAndParameters(raw, before, t, after, parameters) && AllowedName(t)
    ensures TrimEnd(TrimStart(BeforeSemicolon(raw))) == t
  {
    hide AllowedName, AllBlank, Blank;
    AllowedIsPlain(t);
    BlanksHaveNoSemicolon(before);
    BlanksHaveNoSemicolon(after);
    var head := before + t + after;
    CutsAtParameters(head, parameters);
    assert head == before + (t + after);
    TrimsStart(before, t + after);
    TrimsEnd(t, after);
  }

  // ---- Replies ---------------------------------------------------------------------------------

  /** Every reply a run goes on with. */
  ghost predicate Good(r: Reply) {
    r.Reply? && 200 <= r.status <= 299 && r.contentType.Some? && AllowedType(r.contentType.value)
  }

  /** Why a reply that is not good is refused. */
  function Refusal(r: Reply): FailReason {
    match r
    case NoReply => Network
    case Reply(status, retryAfter, contentType, _) =>
      if status == 429 then
        var wait := if retryAfter.Some? then retryAfter.value else 0;
        RateLimited(if wait < 600 then wait else 600)
      else if status < 200 || status > 299 then Http(status)
      else ContentTypeMismatch(if contentType.Some? then contentType.value else "")
  }

  // Which replies are refused, and for which reason.
  lemma RefusedExactly(r: Reply)
    ensures ValidateReply(r) == if Good(r) then None else Some(Refusal(r))
  {
    if r.Reply? {
      AllowedTypesExactly(r.contentType);
    }
    hide AllowedType, ValidateContentType;
  }

  // The probe is refused for the same reasons, and for a length other than the manifest's.
  lemma ProbeRefusedExactly(r: Reply, size: nat)
    ensures ValidateHead(r, size).None? <==> Good(r) && (r.contentLength.None? || r.contentLength.value == size)
    ensures !Good(r) ==> ValidateHead(r, size) == Some(Refusal(r))
    ensures Good(r) && r.contentLength.Some? && r.contentLength.value != size ==>
              ValidateHead(r, size) == Some(ContentLengthMismatch(size, r.contentLength.value))
  {
    RefusedExactly(r);
    hide AllowedType, ValidateReply, Refusal;
  }

  // ---- The stream -------------------------------------------------------------------------------

  /** How many bytes the file has been handed since it was last flushed, before the `k`-th arrival. */
  function Unflushed(arrivals: seq<Arrival>, k: nat): nat
    requires k <= |arrivals|
  {
    if k == 0 then 0
    else
      var n := Unflushed(arrivals, k - 1) + (if arrivals[k - 1].Chunk? then |arrivals[k - 1].data| else 0);
      if n >= 4_194_304 then 0 else n
  }

  /** The loop goes on past the `k`-th arrival: a chunk that is written, and flushed when 4 MiB are due. */
  predicate GoesOn(arrivals: seq<Arrival>, k: nat)
    requires k < |arrivals|
  {
    var a := arrivals[k];
    && a.Chunk?
    && (a.data == [] || (a.written && (Unflushed(arrivals, k) + |a.data| >= 4_194_304 ==> a.flushed)))
  }

  /** The loop stops at the `k`-th arrival, or, with all arrivals taken, at the end of the stream. */
  ghost predicate StopsAt(arrivals: seq<Arrival>, k: nat) {
    k <= |arrivals| && (forall j | 0 <= j < k :: GoesOn(arrivals, j)) && (k < |arrivals| ==> !GoesOn(arrivals, k))
  }

  /** The data of the first `k` arrivals. */
  function Data(arrivals: seq<Arrival>, k: nat): Bytes
    requires k <= |arrivals|
  {
    if k == 0 then [] else Data(arrivals, k - 1) + (if arrivals[k - 1].Chunk? then arrivals[k - 1].data else [])
  }

  /** Why the loop stops at `k`. */
  ghost predicate StopsFor(arrivals: seq<Arrival>, k: nat, stop: Stop)
    requires k <= |arrivals|
  {
    if k == |arrivals| then stop == AtEof
    else
      match arrivals[k]
      case Chunk(_, _, _) => stop == ByFailure(Io)
      case Broken => stop == ByFailure(Network)
      case Stalled => stop == ByFailure(Network)
      case CancelAtHead(flushed) => stop == if flushed then ByCancel(true) else ByFailure(Io)
      case CancelInSelect => stop == ByCancel(false)
  }

  // The loop takes the `i`-th arrival.
  lemma TakenOn(arrivals: seq<Arrival>, i: nat)
    requires i < |arrivals| && GoesOn(arrivals, i) && Unflushed(arrivals, i) < 4_194_304
    ensures
      var drained := Drain(arrivals[i..], Unflushed(arrivals, i));
      var rest := Drain(arrivals[i + 1..], Unflushed(arrivals, i + 1));
      drained.1 == rest.1 && Data(arrivals, i) + drained.0 == Data(arrivals, i + 1) + rest.0
    ensures Unflushed(arrivals, i + 1) < 4_194_304
  {
    assert arrivals[i..][0] == arrivals[i] && arrivals[i..][1..] == arrivals[i + 1..];
    var data, rest := arrivals[i].data, Drain(arrivals[i + 1..], Unflushed(arrivals, i + 1)).0;
    assert Data(arrivals, i) + (data + rest) == Data(arrivals, i) + data + rest;
    assert Data(arrivals, i) + [] == Data(arrivals, i);
  }

  lemma StoppedAt(arrivals: seq<Arrival>, k: nat)
    requires k <= |arrivals| && (k < |arrivals| ==> !GoesOn(arrivals, k))
    ensures
      var drained := Drain(arrivals[k..], Unflushed(arrivals, k));
      && StopsFor(arrivals, k, drained.1)
      && Data(arrivals, k) + drained.0 == Data(arrivals, if k < |arrivals| then k + 1 else k)
  {
    assert k < |arrivals| ==> arrivals[k..][0] == arrivals[k];
    assert k == |arrivals| ==> arrivals[k..] == [];
    assert Data(arrivals, k) + [] == Data(arrivals, k);
  }

  lemma {:induction false} DrainFrom(arrivals: seq<Arrival>, i: nat, k: nat)
    requires StopsAt(arrivals, k) && i <= k && Unflushed(arrivals, i) < 4_194_304
    ensures
      var drained := Drain(arrivals[i..], Unflushed(arrivals, i));
      && StopsFor(arrivals, k, drained.1)
      && Data(arrivals, i) + drained.0 == Data(arrivals, if k < |arrivals| then k + 1 else k)
    decreases k - i
  {
    hide Drain, Data, Unflushed, StopsFor;
    if i < k {
      assert GoesOn(arrivals, i);
      hide GoesOn;
      TakenOn(arrivals, i);
      DrainFrom(arrivals, i + 1, k);
    } else {
      StoppedAt(arrivals, k);
    }
  }

  // The stream stops at the first arrival it cannot go past, for the reason that arrival gives, having handed
  // over everything up to it.
  lemma StreamStopsExactly(arrivals: seq<Arrival>, k: nat)
    requires StopsAt(arrivals, k)
    ensures StopsFor(arrivals, k, Drain(arrivals, 0).1)
    ensures Drain(arrivals, 0).0 == Data(arrivals, if k < |arrivals| then k + 1 else k)
  {
    assert arrivals[0..] == arrivals;
    DrainFrom(arrivals, 0, k);
    assert Data(arrivals, 0) + Drain(arrivals, 0).0 == Drain(arrivals, 0).0;
  }

  lemma {:induction false} SomewhereItStops(arrivals: seq<Arrival>, from: nat) returns (k: nat)
    requires from <= |arrivals| && forall j | 0 <= j < from :: GoesOn(arrivals, j)
    ensures StopsAt(arrivals, k)
    decreases |arrivals| - from
  {
    if from < |arrivals| && GoesOn(arrivals, from) {
      k := SomewhereItStops(arrivals, from + 1);
    } else {
      k := from;
    }
  }

  /** The loop comes to a cancel that it obeys. */
  ghost predicate CancelArrives(arrivals: seq<Arrival>) {
    exists k :: 0 <= k < |arrivals| && (forall j | 0 <= j < k :: GoesOn(arrivals, j))
                && (arrivals[k] == CancelAtHead(true) || arrivals[k].CancelInSelect?)
  }

  lemma CancelledStreams(arrivals: seq<Arrival>)
    ensures Drain(arrivals, 0).1.ByCancel? <==> CancelArrives(arrivals)
  {
    hide Drain;
    var k := SomewhereItStops(arrivals, 0);
    StreamStopsExactly(arrivals, k);
    if CancelArrives(arrivals) {
      var l :| 0 <= l < |arrivals| && (forall j | 0 <= j < l :: GoesOn(arrivals, j))
               && (arrivals[l] == CancelAtHead(true) || arrivals[l].CancelInSelect?);
      assert !GoesOn(arrivals, l);
      assert l <= k;
    }
  }

  /** The server's answer to the probe is accepted. */
  ghost predicate ProbePasses(m: Manifest, a: Attempt) {
    Good(a.head) && (a.head.contentLength.None? || a.head.contentLength.value == m.size)
  }

  /** The run gets as far as streaming: it is let past the probe, and the body is wanted, offered and openable. */
  ghost predicate GetsToStream(m: Manifest, d: Disk, a: Attempt) {
    && (d.part.Some? ==> a.resumeRead && |d.part.value| < m.size) && (d.part.None? ==> 0 < m.size)
    && a.dirMade && Good(a.get) && a.partOpened
  }

  // A run is cancelled exactly when it is not already installed, its probe is accepted, and it is cancelled
  // before the body, or comes to a cancel while streaming.
  lemma CancelledExactly(m: Manifest, digest: Bytes -> Bytes, d: Disk, a: Attempt)
    ensures Outcome(m, digest, d, a) == Cancelled <==>
              && d.final.None? && ProbePasses(m, a)
              && (a.cancelledEarly || (GetsToStream(m, d, a) && CancelArrives(a.arrivals)))
  {
    ProbeRefusedExactly(a.head, m.size);
    RefusedExactly(a.get);
    CancelledStreams(a.arrivals);
    hide Good, ValidateHead, ValidateReply, Drain, CancelArrives, Matches;
  }

  /** The run is let past the probe, and what an earlier one left can be read. */
  ghost predicate GetsToBody(m: Manifest, d: Disk, a: Attempt) {
    && d.final.None? && ProbePasses(m, a) && !a.cancelledEarly && a.dirMade && (d.part.Some? ==> a.resumeRead)
  }

  /** The bytes a run has to start from. */
  function Before(d: Disk): Bytes {
    match d.part
    case Some(bytes) => bytes
    case None => []
  }

  // Every way in which a run can end, `k` being where its stream stops. Before the body:
  lemma EarlyEndsExactly(m: Manifest, digest: Bytes -> Bytes, d: Disk, a: Attempt)
    ensures d.final.Some? ==> Outcome(m, digest, d, a) == Installed
    ensures d.final.None? && !ProbePasses(m, a) ==>
              Outcome(m, digest, d, a)
              == Failed(if !Good(a.head) then Refusal(a.head)
                        else ContentLengthMismatch(m.size, a.head.contentLength.value))
    ensures d.final.None? && ProbePasses(m, a) && a.cancelledEarly ==> Outcome(m, digest, d, a) == Cancelled
    ensures d.final.None? && ProbePasses(m, a) && !a.cancelledEarly && !GetsToBody(m, d, a) ==>
              Outcome(m, digest, d, a) == Failed(Io)
  {
    ProbeRefusedExactly(a.head, m.size);
    RefusedExactly(a.head);
    hide AllowedType, ValidateHead, ValidateReply, Matches, BodyFlow, Refusal;
  }

  // While the body is fetched:
  lemma StreamEndsExactly(m: Manifest, digest: Bytes -> Bytes, d: Disk, a: Attempt, k: nat)
    requires GetsToBody(m, d, a) && |Before(d)| < m.size && StopsAt(a.arrivals, k)
    ensures !Good(a.get) ==> Outcome(m, digest, d, a) == Failed(Refusal(a.get))
    ensures Good(a.get) && !a.partOpened ==> Outcome(m, digest, d, a) == Failed(Io)
    ensures Good(a.get) && a.partOpened && k < |a.arrivals| ==>
              Outcome(m, digest, d, a) == match a.arrivals[k]
                                          case Chunk(_, _, _) => Failed(Io)
                                          case Broken => Failed(Network)
                                          case Stalled => Failed(Network)
                                          case CancelAtHead(flushed) => if flushed then Cancelled else Failed(Io)
                                          case CancelInSelect => Cancelled
    ensures Good(a.get) && a.partOpened && k == |a.arrivals| && !a.finalFlush ==>
              Outcome(m, digest, d, a) == Failed(Io)
  {
    ProbeRefusedExactly(a.head, m.size);
    RefusedExactly(a.get);
    StreamStopsExactly(a.arrivals, k);
    hide AllowedType, ValidateHead, ValidateReply, Drain, Matches, GoesOn, Refusal;
  }

  // And once there is nothing left to fetch: `content` is judged, and a good one is renamed.
  lemma JudgedExactly(m: Manifest, digest: Bytes -> Bytes, d: Disk, a: Attempt, k: nat, content: Bytes)
    requires GetsToBody(m, d, a) && StopsAt(a.arrivals, k)
    requires if |Before(d)| >= m.size then content == Before(d)
             else Good(a.get) && a.partOpened && k == |a.arrivals| && a.finalFlush
                  && content == Before(d) + Data(a.arrivals, k)
    ensures Outcome(m, digest, d, a) == Failed(ChecksumMismatch) <==> !Spells(m.sha256, digest(content))
    ensures Outcome(m, digest, d, a) == Installed <==>
              Spells(m.sha256, digest(content)) && a.renamed && (d.part.Some? || m.size > 0)
    ensures Outcome(m, digest, d, a) in {Failed(ChecksumMismatch), Installed, Failed(Io)}
  {
    ProbeRefusedExactly(a.head, m.size);
    RefusedExactly(a.get);
    StreamStopsExactly(a.arrivals, k);
    hide AllowedType, ValidateHead, ValidateReply, Drain, Spells, GoesOn, Refusal;
  }
}
