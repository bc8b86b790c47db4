/**
 The typed-error codec of `crates/zwhisper-ipc/src/error.rs` and the toggle
 client's classification of bus errors (`crates/zwhisper-hotkey/src/toggle.rs`).

 The daemon cannot send an application error name over the bus, so it writes
 `<prefix><Variant>: <message>` into the body of the generic `Failed` error and
 the client parses the variant name back out.
 */
module RpcErrors {
  import opened Wrappers

  const ERROR_NAME_PREFIX := "cz.zajca.Zwhisper1.Error."
  const FDO_FAILED := "org.freedesktop.DBus.Error.Failed"
  const ERR_SERVICE_UNKNOWN := "org.freedesktop.DBus.Error.ServiceUnknown"
  const ERR_NAME_HAS_NO_OWNER := "org.freedesktop.DBus.Error.NameHasNoOwner"

  datatype RpcError =
    | SessionInUse(existing: string)
    | SessionUnknown(id: string)
    | ProfileNotFound(name: string)
    | ProfileLoadFailed(profile: string, loadReason: string)
    | RecordingFailed(recordReason: string)
    | Transient(transientReason: string)
    | JobUnknown(jobId: string)
    | InvalidPath(pathReason: string)
    | RetryUnavailable
    | AudioNotFound(path: string)
  {
    function VariantName(): string {
      match this
      case SessionInUse(_) => "SessionInUse"
      case SessionUnknown(_) => "SessionUnknown"
      case ProfileNotFound(_) => "ProfileNotFound"
      case ProfileLoadFailed(_, _) => "ProfileLoadFailed"
      case RecordingFailed(_) => "RecordingFailed"
      case Transient(_) => "Transient"
      case JobUnknown(_) => "JobUnknown"
      case InvalidPath(_) => "InvalidPath"
      case RetryUnavailable => "RetryUnavailable"
      case AudioNotFound(_) => "AudioNotFound"
    }

    /** The human text. `quote` is Rust's debug quoting of a profile name. */
    function Display(quote: string -> string): string {
      match this
      case SessionInUse(existing) => "a recording session is already active (id=" + existing + ")"
      case SessionUnknown(id) => "session id " + id + " is not active"
      case ProfileNotFound(name) => "profile " + quote(name) + " not found"
      case ProfileLoadFailed(name, reason) => "failed to load profile " + quote(name) + ": " + reason
      case RecordingFailed(reason) => "recording failed: " + reason
      case Transient(reason) => "transient error: " + reason
      case JobUnknown(id) => "job id " + id + " is not known"
      case InvalidPath(reason) => "invalid path: " + reason
      case RetryUnavailable => "retry is unavailable until the audio model RFC lands (RFC-daemon-role F2.4)"
      case AudioNotFound(path) => "audio file no longer exists: " + path
    }

    function ErrorName(): string {
      ERROR_NAME_PREFIX + VariantName()
    }

    /** The body of the generic failure the daemon sends. */
    function Encode(quote: string -> string): string {
      ErrorName() + ": " + Display(quote)
    }
  }

  const KNOWN_VARIANTS: set<string> := {
    "SessionInUse", "SessionUnknown", "ProfileNotFound", "ProfileLoadFailed", "RecordingFailed",
    "Transient", "JobUnknown", "InvalidPath", "RetryUnavailable", "AudioNotFound"
  }

  function MatchKnownVariant(name: string): Option<string> {
    if name in KNOWN_VARIANTS then Some(name) else None
  }

  function StripPrefix(s: string, prefix: string): Option<string> {
    if prefix <= s then Some(s[|prefix|..]) else None
  }

  /** The text before the first `sep`, and the text after it. */
  function SplitOnce(s: string, sep: char): (r: Option<(string, string)>)
    ensures r.None? <==> sep !in s
    ensures r.Some? ==> s == r.value.0 + [sep] + r.value.1 && sep !in r.value.0
  {
    if s == "" then None
    else if s[0] == sep then Some(("", s[1..]))
    else
      match SplitOnce(s[1..], sep)
      case None => None
      case Some((before, after)) => Some(([s[0]] + before, after))
  }

  function ParseTypedSuffix(msg: string): Option<string> {
    match StripPrefix(msg, ERROR_NAME_PREFIX)
    case None => None
    case Some(suffix) =>
      match SplitOnce(suffix, ':')
      case None => None
      case Some((name, _)) => MatchKnownVariant(name)
  }

  // The split at the first separator is the only split whose left part has no separator.
  lemma {:induction false} SplitIsUnique(before: string, sep: char, after: string)
    requires sep !in before
    ensures SplitOnce(before + [sep] + after, sep) == Some((before, after))
  {
    var s := before + [sep] + after;
    if before == "" {
      assert s == [sep] + after;
    } else {
      assert s[1..] == before[1..] + [sep] + after;
      SplitIsUnique(before[1..], sep, after);
      assert [s[0]] + before[1..] == before;
    }
  }

  lemma KnownVariantsHaveNoColon(name: string)
    requires name in KNOWN_VARIANTS
    ensures ':' !in name
  {
  }

  // A message parses to `n` exactly when it is the prefix, a known name `n`, a colon, and anything.
  lemma {:induction false} ParseExactly(msg: string, n: string)
    ensures ParseTypedSuffix(msg) == Some(n)
       <==> && n in {"SessionInUse", "SessionUnknown", "ProfileNotFound", "ProfileLoadFailed", "RecordingFailed",
                     "Transient", "JobUnknown", "InvalidPath", "RetryUnavailable", "AudioNotFound"}
            && "cz.zajca.Zwhisper1.Error." + n + ":" <= msg
  {
    ParsedByConstants(msg, n);
    hide ParseTypedSuffix;
  }

  lemma {:induction false} ParsedByConstants(msg: string, n: string)
    ensures ParseTypedSuffix(msg) == Some(n)
       <==> n in KNOWN_VARIANTS && ERROR_NAME_PREFIX + n + ":" <= msg
  {
    hide ParseTypedSuffix, KNOWN_VARIANTS, ERROR_NAME_PREFIX;
    if n in KNOWN_VARIANTS && ERROR_NAME_PREFIX + n + ":" <= msg {
      var head := ERROR_NAME_PREFIX + n + ":";
      assert msg == head + msg[|head|..];
      ParsesKnown(n, msg[|head|..]);
    }
    if ParseTypedSuffix(msg) == Some(n) {
      ParsedHasForm(msg, n);
    }
  }

  lemma {:induction false} ParsesKnown(n: string, rest: string)
    requires n in KNOWN_VARIANTS
    ensures ParseTypedSuffix(ERROR_NAME_PREFIX + n + ":" + rest) == Some(n)
  {
    KnownVariantsHaveNoColon(n);
    hide KNOWN_VARIANTS, ERROR_NAME_PREFIX, SplitOnce;
    var msg := ERROR_NAME_PREFIX + n + ":" + rest;
    assert msg == ERROR_NAME_PREFIX + (n + [':'] + rest);
    assert msg[|ERROR_NAME_PREFIX|..] == n + [':'] + rest;
    SplitIsUnique(n, ':', rest);
  }

  lemma {:induction false} ParsedHasForm(msg: string, n: string)
    requires ParseTypedSuffix(msg) == Some(n)
    ensures n in KNOWN_VARIANTS && ERROR_NAME_PREFIX + n + ":" <= msg
  {
    hide KNOWN_VARIANTS, ERROR_NAME_PREFIX, SplitOnce;
    var suffix := msg[|ERROR_NAME_PREFIX|..];
    var (name, rest) := SplitOnce(suffix, ':').value;
    assert msg == ERROR_NAME_PREFIX + suffix;
    assert msg == ERROR_NAME_PREFIX + n + ":" + rest;
  }

  lemma VariantIsKnown(e: RpcError)
    ensures e.VariantName() in KNOWN_VARIANTS
  {
  }

  // Whatever text the payload carries, colons and prefixes included, the variant survives the wire.
  lemma {:induction false} EncodeThenParse(e: RpcError, quote: string -> string)
    ensures ParseTypedSuffix(e.Encode(quote)) == Some(e.VariantName())
    ensures ParseTypedSuffix(e.Encode(quote)) == Some(
              match e
              case SessionInUse(_) => "SessionInUse"
              case SessionUnknown(_) => "SessionUnknown"
              case ProfileNotFound(_) => "ProfileNotFound"
              case ProfileLoadFailed(_, _) => "ProfileLoadFailed"
              case RecordingFailed(_) => "RecordingFailed"
              case Transient(_) => "Transient"
              case JobUnknown(_) => "JobUnknown"
              case InvalidPath(_) => "InvalidPath"
              case RetryUnavailable => "RetryUnavailable"
              case AudioNotFound(_) => "AudioNotFound")
  {
    hide RpcError.Display, ParseTypedSuffix, KNOWN_VARIANTS, ERROR_NAME_PREFIX;
    VariantIsKnown(e);
    var rest := " " + e.Display(quote);
    assert ": " == ":" + " ";
    assert e.Encode(quote) == ERROR_NAME_PREFIX + e.VariantName() + ":" + rest;
    ParsesKnown(e.VariantName(), rest);
  }

  // ---- Bus errors as a client receives them --------------------------------

  datatype BusError =
    | MethodError(name: string, body: Option<string>)
    | FdoFailed(msg: string)
    | FdoOther
    | Address
    | InputOutput
    | OtherBusError

  function ParseErrorNameFromZbus(err: BusError): Option<string> {
    match err
    case MethodError(name, body) =>
      (match StripPrefix(name, ERROR_NAME_PREFIX)
       case Some(suffix) => MatchKnownVariant(suffix)
       case None =>
         if name == FDO_FAILED && body.Some? then ParseTypedSuffix(body.value) else None)
    case FdoFailed(msg) => ParseTypedSuffix(msg)
    case _ => None
  }

  datatype ToggleError =
    | Debounced(debounceMs: nat)
    | CoolingDown(cooldownMs: nat)
    | DaemonDown
    | NoActiveProfile
    | AlreadyActive
    | Rpc(text: string)

  /** `ToggleError::from_zbus`; `text` is the error's own rendering. */
  function FromZbus(err: BusError, text: string): ToggleError {
    match err
    case MethodError(name, _) =>
      if name == ERR_SERVICE_UNKNOWN || name == ERR_NAME_HAS_NO_OWNER then DaemonDown
      else if ParseErrorNameFromZbus(err) == Some("SessionInUse") then AlreadyActive
      else Rpc(text)
    case Address => DaemonDown
    case InputOutput => DaemonDown
    case FdoFailed(_) =>
      if ParseErrorNameFromZbus(err) == Some("SessionInUse") then AlreadyActive else Rpc(text)
    case FdoOther => Rpc(text)
    case OtherBusError => Rpc(text)
  }

  /** The two shapes in which the transport hands the daemon's failure to a client. */
  ghost predicate CarriesRpcError(err: BusError, e: RpcError, quote: string -> string) {
    || err == MethodError(FDO_FAILED, Some(e.Encode(quote)))
    || err == FdoFailed(e.Encode(quote))
  }

  lemma NamedInUse(name: string)
    ensures StripPrefix(name, ERROR_NAME_PREFIX) == Some("SessionInUse")
       <==> name == "cz.zajca.Zwhisper1.Error.SessionInUse"
    ensures name == "org.freedesktop.DBus.Error.Failed" ==> StripPrefix(name, ERROR_NAME_PREFIX).None?
  {
    var n := |ERROR_NAME_PREFIX|;
    assert ERROR_NAME_PREFIX <= name ==> name == ERROR_NAME_PREFIX + name[n..];
    var whole := "cz.zajca.Zwhisper1.Error.SessionInUse";
    assert ERROR_NAME_PREFIX <= whole && whole[n..] == "SessionInUse";
    assert "org.freedesktop.DBus.Error.Failed"[0] != ERROR_NAME_PREFIX[0];
  }

  lemma FoundInUse(msg: string)
    ensures ParseTypedSuffix(msg) == Some("SessionInUse") <==> "cz.zajca.Zwhisper1.Error.SessionInUse:" <= msg
  {
    hide ParseTypedSuffix;
    ParseExactly(msg, "SessionInUse");
    assert "cz.zajca.Zwhisper1.Error." + "SessionInUse" + ":" == "cz.zajca.Zwhisper1.Error.SessionInUse:";
  }

  /** The error says that a session is in use, by its name or in its text. */
  predicate SaysInUse(err: BusError) {
    match err
    case MethodError(name, body) =>
      || name == "cz.zajca.Zwhisper1.Error.SessionInUse"
      || (name == "org.freedesktop.DBus.Error.Failed" && body.Some?
          && "cz.zajca.Zwhisper1.Error.SessionInUse:" <= body.value)
    case FdoFailed(msg) => "cz.zajca.Zwhisper1.Error.SessionInUse:" <= msg
    case _ => false
  }

  /** The daemon is not there to answer. */
  predicate SaysUnreachable(err: BusError) {
    || err.Address? || err.InputOutput?
    || (err.MethodError? && err.name in {"org.freedesktop.DBus.Error.ServiceUnknown",
                                         "org.freedesktop.DBus.Error.NameHasNoOwner"})
  }

  // What the client makes of every bus error.
  lemma ClassifiedExactly(err: BusError, text: string)
    ensures FromZbus(err, text) == if SaysUnreachable(err) then DaemonDown
                                   else if SaysInUse(err) then AlreadyActive
                                   else Rpc(text)
  {
    hide ParseTypedSuffix;
    match err
    case MethodError(name, body) =>
      NamedInUse(name);
      if body.Some? {
        FoundInUse(body.value);
      }
    case FdoFailed(msg) => FoundInUse(msg);
    case _ =>
  }

  lemma FailedIsReachable()
    ensures FDO_FAILED == "org.freedesktop.DBus.Error.Failed"
    ensures FDO_FAILED !in {"org.freedesktop.DBus.Error.ServiceUnknown", "org.freedesktop.DBus.Error.NameHasNoOwner"}
    ensures FDO_FAILED != "cz.zajca.Zwhisper1.Error.SessionInUse"
  {
    assert |FDO_FAILED| == 33;
    assert FDO_FAILED[0] == 'o';
  }

  // A client classifies a daemon error as the benign race exactly when the daemon raised SessionInUse.
  lemma OnlySessionInUseIsBenign(err: BusError, e: RpcError, quote: string -> string, text: string)
    requires CarriesRpcError(err, e, quote)
    ensures FromZbus(err, text) == AlreadyActive <==> e.SessionInUse?
    ensures !e.SessionInUse? ==> FromZbus(err, text) == Rpc(text)
  {
    hide ParseTypedSuffix, RpcError.Encode, FDO_FAILED, FromZbus;
    EncodeThenParse(e, quote);
    hide RpcError.VariantName;
    FoundInUse(e.Encode(quote));
    FailedIsReachable();
    ClassifiedExactly(err, text);
  }
}
