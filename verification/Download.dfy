/**
 The resumable model downloader (`crates/zwhisper-settings/src/download.rs`).

 A run probes the server, re-hashes what an earlier run left in `.part`, appends
 what the server sends, compares the digest and renames. Everything outside the
 program is in `Attempt`: the server's answers, the pieces in which the body
 arrives, cancellation, and which local calls fail. The digest is any function.
 */
module Download {
  import opened Wrappers
  import opened Hexadecimal

  // ---- The server's replies -----------------------------------------------------------------

  const ALLOWED_CONTENT_TYPES := ["application/octet-stream", "application/x-binary", "binary/octet-stream"]

  const RETRY_AFTER_MAX_SECS: nat := 600

  const FLUSH_CHUNK_BYTES: nat := 4 * 1024 * 1024

  datatype FailReason =
    | Network
    | Http(status: nat)
    | RateLimited(retryAfterSecs: nat)
    | ContentTypeMismatch(raw: string)
    | ContentLengthMismatch(expected: nat, actual: nat)
    | ChecksumMismatch
    | Io

  /** Headers that are absent, or do not parse, are `None`. */
  datatype Reply =
    | NoReply
    | Reply(status: nat, retryAfter: Option<nat>, contentType: Option<string>, contentLength: Option<nat>)

  function BeforeSemicolon(s: string): string {
    if s == "" || s[0] == ';' then "" else [s[0]] + BeforeSemicolon(s[1..])
  }

  /** A header value that decodes to text has no whitespace but spaces and tabs. */
  predicate Blank(c: char) {
    c == ' ' || c == '\t'
  }

  function TrimStart(s: string): string {
    if s != "" && Blank(s[0]) then TrimStart(s[1..]) else s
  }

  function TrimEnd(s: string): string {
    if s != "" && Blank(s[|s| - 1]) then TrimEnd(s[..|s| - 1]) else s
  }

  function BareType(raw: string): string {
    Lower(TrimEnd(TrimStart(BeforeSemicolon(raw))))
  }

  function ValidateContentType(contentType: Option<string>): Option<FailReason> {
    var raw := if contentType.Some? then contentType.value else "";
    if BareType(raw) in ALLOWED_CONTENT_TYPES then None else Some(ContentTypeMismatch(raw))
  }

  function ValidateContentLength(contentLength: Option<nat>, expected: nat): Option<FailReason> {
    if contentLength.Some? && contentLength.value != expected then
      Some(ContentLengthMismatch(expected, contentLength.value))
    else
      None
  }

  /** What both requests check first: the status, then the content type. */
  function ValidateReply(r: Reply): Option<FailReason> {
    if r.NoReply? then Some(Network)
    else if r.status == 429 then
      Some(RateLimited(if r.retryAfter.None? then 0
                       else if r.retryAfter.value < RETRY_AFTER_MAX_SECS then r.retryAfter.value
                       else RETRY_AFTER_MAX_SECS))
    else if !(200 <= r.status < 300) then Some(Http(r.status))
    else ValidateContentType(r.contentType)
  }

  function ValidateHead(r: Reply, size: nat): Option<FailReason> {
    var reason := ValidateReply(r);
    if reason.Some? then reason else ValidateContentLength(r.contentLength, size)
  }

  // ---- One run, from outside ---------------------------------------------------------------

  datatype Manifest = Manifest(size: nat, sha256: string)

  datatype Disk = Disk(part: Option<Bytes>, final: Option<Bytes>)

  datatype DownloadState =
    | Resolving
    | Fetching(bytesDone: nat, total: nat)
    | Verifying
    | Installed
    | Failed(reason: FailReason)
    | Cancelled

  /** What one turn of the streaming loop meets. The end of the sequence is the end of the stream. */
  datatype Arrival =
    | Chunk(data: Bytes, written: bool, flushed: bool)
    | Broken
    | Stalled
    | CancelAtHead(flushed: bool)
    | CancelInSelect

  datatype Attempt = Attempt(
    head: Reply,
    cancelledEarly: bool,
    dirMade: bool,
    resumeRead: bool,
    get: Reply,
    partOpened: bool,
    arrivals: seq<Arrival>,
    finalFlush: bool,
    renamed: bool,
    removed: bool)

  datatype Stop = AtEof | ByCancel(flushed: bool) | ByFailure(reason: FailReason)

  /** The bytes handed to the file until the loop stops, and why it stops. */
  function Drain(arrivals: seq<Arrival>, sinceFlush: nat): (Bytes, Stop) {
    if arrivals == [] then ([], AtEof)
    else
      match arrivals[0]
      case Broken => ([], ByFailure(Network))
      case Stalled => ([], ByFailure(Network))
      case CancelAtHead(flushed) => ([], if flushed then ByCancel(true) else ByFailure(Io))
      case CancelInSelect => ([], ByCancel(false))
      case Chunk(data, written, flushed) =>
        if data == [] then Drain(arrivals[1..], sinceFlush)
        else if !written then (data, ByFailure(Io))
        else
          var since := sinceFlush + |data|;
          if since >= FLUSH_CHUNK_BYTES && !flushed then (data, ByFailure(Io))
          else
            var rest := Drain(arrivals[1..], if since >= FLUSH_CHUNK_BYTES then 0 else since);
            (data + rest.0, rest.1)
  }

  /** How far a run gets. */
  datatype Flow =
    | NoStream(end: DownloadState)
    | SkipGet
    | Stream(received: Bytes, stop: Stop)

  function Held(d: Disk): Bytes {
    if d.part.Some? then d.part.value else []
  }

  /** The run ends before it looks at the body. */
  function Early(m: Manifest, d: Disk, a: Attempt): Option<DownloadState> {
    if d.final.Some? then Some(Installed)
    else if ValidateHead(a.head, m.size).Some? then Some(Failed(ValidateHead(a.head, m.size).value))
    else if a.cancelledEarly then Some(Cancelled)
    else if !a.dirMade || (d.part.Some? && !a.resumeRead) then Some(Failed(Io))
    else None
  }

  function FlowOf(m: Manifest, d: Disk, a: Attempt): Flow {
    var early := Early(m, d, a);
    if early.Some? then NoStream(early.value) else BodyFlow(m, d, a)
  }

  function BodyFlow(m: Manifest, d: Disk, a: Attempt): (f: Flow)
    ensures f.NoStream? ==> f.end.Failed?
  {
    if |Held(d)| >= m.size then SkipGet
    else if ValidateReply(a.get).Some? then NoStream(Failed(ValidateReply(a.get).value))
    else if !a.partOpened then NoStream(Failed(Io))
    else
      var drained := Drain(a.arrivals, 0);
      Stream(drained.0, if drained.1.AtEof? && !a.finalFlush then ByFailure(Io) else drained.1)
  }

  /** The run got to the end of the body, as it sees it, and judges what it has. */
  predicate Judges(f: Flow) {
    f.SkipGet? || (f.Stream? && f.stop.AtEof?)
  }

  function Content(d: Disk, f: Flow): Bytes {
    if f.Stream? then Held(d) + f.received else Held(d)
  }

  /** The manifest's checksum, read in either case of letters, is the content's digest. */
  ghost predicate Matches(m: Manifest, digest: Bytes -> Bytes, content: Bytes) {
    Spells(m.sha256, digest(content))
  }

  /** What the run returns. */
  ghost function Outcome(m: Manifest, digest: Bytes -> Bytes, d: Disk, a: Attempt): DownloadState {
    var f := FlowOf(m, d, a);
    if Judges(f) then
      if !Matches(m, digest, Content(d, f)) then Failed(ChecksumMismatch)
      // an empty model with no `.part` leaves nothing to rename
      else if a.renamed && (f.Stream? || d.part.Some?) then Installed
      else Failed(Io)
    else if f.NoStream? then f.end
    else if f.stop.ByCancel? then Cancelled
    else Failed(f.stop.reason)
  }

  /** `.part` has grown by some of the bytes received. */
  ghost predicate PartGrew(d: Disk, d': Disk, received: Bytes) {
    d'.final == d.final && d'.part.Some? && Held(d) <= d'.part.value <= Held(d) + received
  }

  /** What the run leaves on disk. Unless it flushed, some of the last bytes may be missing. */
  ghost predicate Leaves(m: Manifest, digest: Bytes -> Bytes, d: Disk, a: Attempt, d': Disk) {
    var f := FlowOf(m, d, a);
    var content := Content(d, f);
    if f.NoStream? then d' == d
    else if Judges(f) then
      (match Outcome(m, digest, d, a)
       case Installed => d' == Disk(None, Some(content))
       case Failed(ChecksumMismatch) =>
         d' == d.(part := if a.removed || (f.SkipGet? && d.part.None?) then None else Some(content))
       case _ => d' == if f.SkipGet? then d else d.(part := Some(content)))
    else
      PartGrew(d, d', f.received) && (f.stop == ByCancel(true) ==> d'.part == Some(content))
  }

  /** A disk that a crash in the middle of the run may leave. */
  ghost predicate Passes(m: Manifest, digest: Bytes -> Bytes, d: Disk, a: Attempt, d': Disk) {
    var f := FlowOf(m, d, a);
    d' == d || (f.Stream? && PartGrew(d, d', f.received)) || Leaves(m, digest, d, a, d')
  }
}
