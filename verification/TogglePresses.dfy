/**
 `toggle_once` of `crates/zwhisper-hotkey/src/toggle.rs` as it runs against the
 daemon: every call and every read of the file is a move of the machine in
 `NoOverlap`, and before each the daemon takes any number of steps.

 The methods keep `Arises`, so every result about the worlds that arise holds of what
 they do.
 */
module TogglePresses {
  import opened Wrappers
  import opened RpcErrors
  import opened SessionManagers
  import opened Protocol
  import opened NoOverlap
  import Toggle

  /** A move, and the world it was made in. */
  datatype Made = Made(from: World, move: Move)

  /**
     Where one press saw the daemon: when it asked for the status, when it then read the
     active-session file, when it sent its start or stop call, and when it heard the
     answer to a start.
   */
  datatype Sight = Sight(asked: World, looked: World, sent: World, heard: World)

  /**
     What is not up to the daemon: whether the status call is answered and the file can
     be read, the profile the daemon gives if it does, and how often the client looks
     for an answer before it gives up.
   */
  datatype Luck = Luck(answered: bool, read: bool, profile: Option<string>, patience: nat)

  /** The session the file names, if it can be read. */
  function Found(read: bool, file: Option<ActiveFile>): Option<SessionId> {
    if read && file.Some? && file.value.schemaVersion == 1 then Some(file.value.sessionId) else None
  }

  /** Among the moves since there were `n`. */
  ghost predicate MadeIn(made: seq<Made>, n: nat, from: World, m: Move) {
    n <= |made| && Made(from, m) in made[n..]
  }

  lemma MadeNow(before: seq<Made>, n: nat, from: World, m: Move)
    requires n <= |before|
    ensures MadeIn(before + [Made(from, m)], n, from, m)
  {
    assert (before + [Made(from, m)])[n..][|before| - n] == Made(from, m);
  }

  lemma MadeLater(before: seq<Made>, after: seq<Made>, n: nat, from: World, m: Move)
    requires before <= after && MadeIn(before, n, from, m)
    ensures MadeIn(after, n, from, m)
  {
    var k :| 0 <= k < |before[n..]| && before[n..][k] == Made(from, m);
    assert after[n..][k] == before[n..][k];
  }

  lemma MadeEarlier(made: seq<Made>, k: nat, n: nat, from: World, m: Move)
    requires n <= k && MadeIn(made, k, from, m)
    ensures MadeIn(made, n, from, m)
  {
    var i :| 0 <= i < |made[k..]| && made[k..][i] == Made(from, m);
    assert made[n..][i + k - n] == made[k..][i];
  }

  // Where the moves of a press that send a call, or hear of it, take the client.
  lemma CallMoves(w: World, m: Move)
    requires Possible(w, m)
    ensures m.SendStart? ==> Make(w, m).phase.StartPending? && Make(w, m).own.Queued?
    ensures m.SendStop? ==> Make(w, m).phase.StopPending? && Make(w, m).own == w.own
    ensures m.StartReturns? ==> Make(w, m).phase.Ready? && Make(w, m).own.NoCall?
    ensures m.StopReturns? ==> Make(w, m).phase.Ready? && Make(w, m).own == w.own && Make(w, m).d == w.d
    ensures m.Abort? ==> Make(w, m).phase.Ready? && Make(w, m).own.NoCall? && Make(w, m).d == w.d
  {
    hide CallQueues, StopArrives, Do, Enabled;
  }

  lemma ReadMoves(w: World, read: bool)
    requires w.phase.SawBusy?
    ensures Possible(w, ReadId(read))
    ensures var w' := Make(w, ReadId(read));
            && w'.own == w.own
            && w'.phase == match Found(read, w.d.active) case Some(id) => SawRecording(id) case None => Ready
  {
  }

  /** The client's side of the bus, with the daemon behind it. */
  class RecorderClient {
    var w: World
    var calls: seq<Toggle.RpcCall>
    // every move of client and daemon, and how often the client has waited
    ghost var made: seq<Made>
    ghost var looks: nat
    // how a profile name is quoted in an error text
    const quote: string -> string

    ghost predicate Valid()
      reads this
    {
      Arises(w)
    }

    constructor (active: Option<ActiveFile>, last: Option<LastFile>, quote: string -> string)
      requires LastFileIsOwn(last)
      ensures Valid() && w == Boot(active, last) && calls == [] && this.quote == quote && made == [] && looks == 0
    {
      this.quote := quote;
      w := Boot(active, last);
      calls := [];
      made, looks := [], 0;
      new;
      assert Trail(w, [], w);
    }

    /** The daemon takes any finite number of steps. */
    method Others()
      requires Valid()
      modifies `w, `made, `looks
      ensures Valid() && w.phase == old(w.phase) && (w.own.NoCall? <==> old(w.own.NoCall?))
      ensures old(made) <= made && (forall k | |old(made)| <= k < |made| :: made[k].move.Daemon?)
      ensures looks == old(looks) + 1
    {
      hide Arises;
      looks := looks + 1;
      var steps: nat := *;
      while steps > 0
        invariant Valid() && w.phase == old(w.phase) && (w.own.NoCall? <==> old(w.own.NoCall?))
        invariant old(made) <= made && forall k | |old(made)| <= k < |made| :: made[k].move.Daemon?
        invariant looks == old(looks) + 1
      {
        var e: Event := *;
        var mine: bool := *;
        if Possible(w, Daemon(e, mine)) {
          DaemonLeavesClient(w, e, mine);
          ArisesStep(w, Daemon(e, mine));
          made := made + [Made(w, Daemon(e, mine))];
          w := DaemonMoves(w, e, mine);
        }
        steps := steps - 1;
      }
    }

    /** The client makes its own move. */
    method Take(m: Move)
      requires Valid() && Possible(w, m)
      modifies `w, `made
      ensures Valid() && w == Make(old(w), m) && made == old(made) + [Made(old(w), m)]
    {
      ArisesStep(w, m);
      made := made + [Made(w, m)];
      w := Make(w, m);
      hide Arises, Make;
    }

    /** `LiveRecorderClient::get_status`: the session of a busy daemon is read from the file. */
    method GetStatus(answered: bool, read: bool)
      returns (r: Result<Toggle.RecorderStatus, ToggleError>, ghost asked: World, ghost looked: World)
      requires Valid() && w.phase.AskingStatus? && w.own.NoCall?
      modifies this
      ensures Valid() && w.own.NoCall? && calls == old(calls) + [Toggle.RpcCall.GetStatus]
      ensures old(made) <= made && old(looks) <= looks
      ensures !answered ==> r == Err(DaemonDown) && w.phase.Ready?
      // the slot decides, as it is when the status is asked for
      ensures answered ==> MadeIn(made, |old(made)|, asked, Status)
      ensures answered && asked.d.mgr.slot.None? ==> r == Ok(Toggle.IdleStatus) && w.phase.SawIdle?
      // and names the session of a busy daemon only if the file does, when it is then read
      ensures answered && asked.d.mgr.slot.Some? ==>
                && MadeIn(made, |old(made)|, looked, ReadId(read))
                && match Found(read, looked.d.active)
                   case Some(id) => r == Ok(Toggle.RecordingStatus(id)) && w.phase == SawRecording(id)
                   case None => r.Err? && r.error.Rpc? && w.phase.Ready?
    {
      hide Arises, MadeIn;
      calls := calls + [Toggle.RpcCall.GetStatus];
      Others();
      asked, looked := w, w;
      if !answered {
        Take(Abort);
        return Err(DaemonDown), asked, looked;
      }
      MadeNow(made, |old(made)|, asked, Status);
      Take(Status);
      if w.phase.SawIdle? {
        return Ok(Toggle.IdleStatus), asked, looked;
      }
      ghost var before := made;
      r, looked := ReadNamed(read);
      MadeLater(before, made, |old(made)|, asked, Status);
      MadeEarlier(made, |before|, |old(made)|, looked, ReadId(read));
    }

    /** The session of a busy daemon, from the file. */
    method ReadNamed(read: bool) returns (r: Result<Toggle.RecorderStatus, ToggleError>, ghost looked: World)
      requires Valid() && w.phase.SawBusy? && w.own.NoCall?
      modifies `w, `made, `looks
      ensures Valid() && w.own.NoCall? && old(made) <= made && old(looks) <= looks
      ensures MadeIn(made, |old(made)|, looked, ReadId(read))
      ensures match Found(read, looked.d.active)
              case Some(id) => r == Ok(Toggle.RecordingStatus(id)) && w.phase == SawRecording(id)
              case None => r.Err? && r.error.Rpc? && w.phase.Ready?
    {
      hide Arises, MadeIn, Make, Possible, Found;
      Others();
      looked := w;
      ReadMoves(w, read);
      MadeNow(made, |old(made)|, looked, ReadId(read));
      Take(ReadId(read));
      if w.phase.SawRecording? {
        r := Ok(Toggle.RecordingStatus(w.phase.id));
      } else {
        r := Err(Rpc("daemon reports recording but active-session.json is missing"));
      }
    }

    /** The file counts as absent when it cannot be read. */
    method ReadActive(read: bool) returns (present: bool, ghost looked: World)
      requires Valid() && w.phase.SawIdle? && w.own.NoCall?
      modifies `w, `made, `looks
      ensures Valid() && w.own.NoCall? && w.phase == (if present then Ready else NotDraining)
      ensures old(made) <= made && old(looks) <= looks
      ensures MadeIn(made, |old(made)|, looked, CheckFile(read))
      ensures present <==> Found(read, looked.d.active).Some?
    {
      hide Arises, Valid, MadeIn;
      Others();
      looked := w;
      MadeNow(made, |old(made)|, looked, CheckFile(read));
      Take(CheckFile(read));
      present := w.phase.Ready?;
    }

    /** `profile` is what the daemon answers, if it does. */
    method GetActiveProfile(profile: Option<string>) returns (r: Result<string, ToggleError>)
      requires Valid() && w.phase.NotDraining? && w.own.NoCall?
      modifies this
      ensures Valid() && w.own.NoCall? && calls == old(calls) + [Toggle.RpcCall.GetActiveProfile]
      ensures old(made) <= made && old(looks) <= looks
      ensures r == match profile case Some(name) => Ok(name) case None => Err(DaemonDown)
      ensures w.phase == if r.Ok? && r.value != "" then HasProfile(r.value) else Ready
    {
      hide Arises;
      calls := calls + [Toggle.RpcCall.GetActiveProfile];
      Others();
      match profile {
        case None =>
          Take(Abort);
          r := Err(DaemonDown);
        case Some(name) =>
          Take(Profile(name));
          r := Ok(name);
      }
    }

    /**
     The call and its answer, as the client comes to see it: a refusal travels as the
     typed error. The client gives up only after it has looked `patience` times more.
     */
    method StartRecording(profile: string, patience: nat)
      returns (r: Result<SessionId, ToggleError>, ghost a: Option<Answer>, ghost heard: World)
      requires Valid() && w.phase == HasProfile(profile) && w.own.NoCall?
      modifies this
      ensures Valid() && w.own.NoCall? && w.phase.Ready? && calls == old(calls) + [Toggle.StartCall(profile)]
      ensures MadeIn(made, |old(made)|, old(w), SendStart) && old(made) <= made && old(looks) <= looks
      ensures a.Some? ==> MadeIn(made, |old(made)|, heard, StartReturns) && heard.own == Answered(a.value)
      ensures a.None? ==> looks == old(looks) + 1 + patience && r == Err(DaemonDown)
      ensures a.Some? ==> AsHeard(a.value, r)
    {
      hide Arises, MadeIn, AsHeard, Make;
      calls := calls + [Toggle.StartCall(profile)];
      MadeNow(made, |made|, w, SendStart);
      CallMoves(w, SendStart);
      Take(SendStart);
      ghost var sent := made;
      AwaitAnswer(patience);
      heard := w;
      if !w.own.Answered? {
        CallMoves(w, Abort);
        Take(Abort);
        MadeLater(sent, made, |old(made)|, old(w), SendStart);
        return Err(DaemonDown), None, heard;
      }
      var answer := w.own.answer;
      MadeNow(made, |old(made)|, heard, StartReturns);
      CallMoves(w, StartReturns);
      Take(StartReturns);
      MadeLater(sent, made, |old(made)|, old(w), SendStart);
      a := Some(answer);
      r := Heard(answer);
    }

    method AwaitAnswer(patience: nat)
      requires Valid() && w.phase.StartPending? && !w.own.NoCall?
      modifies `w, `made, `looks
      ensures Valid() && w.phase.StartPending? && !w.own.NoCall? && old(made) <= made && old(looks) <= looks
      ensures !w.own.Answered? ==> looks == old(looks) + 1 + patience
    {
      hide Arises;
      var left := patience;
      Others();
      while !w.own.Answered? && left > 0
        invariant Valid() && w.phase.StartPending? && !w.own.NoCall? && old(made) <= made
        invariant 0 <= left <= patience && looks == old(looks) + 1 + (patience - left)
      {
        Others();
        left := left - 1;
      }
    }

    /** What the answer becomes on its way through the bus. */
    method Heard(answer: Answer) returns (r: Result<SessionId, ToggleError>)
      ensures AsHeard(answer, r)
    {
      match answer {
        case Began(id) => r := Ok(id);
        case Busy(holder) =>
          var e := SessionInUse(holder);
          var err := MethodError(FDO_FAILED, Some(e.Encode(quote)));
          OnlySessionInUseIsBenign(err, e, quote, "");
          r := Err(FromZbus(err, ""));
        case Refused =>
          var text: string := *;
          var e := Transient(text);
          var err := MethodError(FDO_FAILED, Some(e.Encode(quote)));
          OnlySessionInUseIsBenign(err, e, quote, text);
          r := Err(FromZbus(err, text));
      }
      hide FromZbus;
    }

    /**
     The daemon decides when the call arrives, and answers a `Stopped` once the hook has
     been called: an `Ok` means that the session's own recorder has been told to stop.
     */
    method StopRecording(id: SessionId, patience: nat) returns (r: Result<(), ToggleError>, ghost sent: World)
      requires Valid() && w.phase == SawRecording(id) && w.own.NoCall?
      modifies this
      ensures Valid() && w.own.NoCall? && w.phase.Ready? && calls == old(calls) + [Toggle.StopCall(id)]
      ensures MadeIn(made, |old(made)|, sent, SendStop) && old(made) <= made && old(looks) <= looks
      ensures StopHeard(id, sent, w, r)
      ensures r == Err(DaemonDown) ==> looks == old(looks) + 2 + patience
    {
      hide Arises, StopArrives, MadeIn, Make, Manager.StopDecision, StopHeard;
      calls := calls + [Toggle.StopCall(id)];
      Others();
      sent := w;
      var decision := w.d.mgr.StopDecision(id);
      MadeNow(made, |old(made)|, sent, SendStop);
      CallMoves(w, SendStop);
      Take(SendStop);
      ghost var before := made;
      Others();
      if decision != Stopped {
        CallMoves(w, StopReturns);
        Take(StopReturns);
        MadeLater(before, made, |old(made)|, sent, SendStop);
        r := Err(Rpc("the session is not active, or not ready to stop"));
        StopIsHeard(id, sent, w, r);
        return;
      }
      r := AwaitStopped(id, patience);
      MadeLater(before, made, |old(made)|, sent, SendStop);
      StopIsHeard(id, sent, w, r);
    }

    method AwaitStopped(id: SessionId, patience: nat) returns (r: Result<(), ToggleError>)
      requires Valid() && w.phase.StopPending? && w.own.NoCall?
      modifies `w, `made, `looks
      ensures Valid() && w.own.NoCall? && w.phase.Ready? && old(made) <= made && old(looks) <= looks
      ensures r == if Reply(id, Stopped) in w.d.replies then Ok(()) else Err(DaemonDown)
      ensures r.Err? ==> looks == old(looks) + patience
    {
      hide Arises, Make;
      var left := patience;
      while Reply(id, Stopped) !in w.d.replies && left > 0
        invariant Valid() && w.phase.StopPending? && w.own.NoCall? && old(made) <= made
        invariant 0 <= left <= patience && looks == old(looks) + (patience - left)
      {
        Others();
        left := left - 1;
      }
      if Reply(id, Stopped) in w.d.replies {
        CallMoves(w, StopReturns);
        Take(StopReturns);
        return Ok(());
      }
      CallMoves(w, Abort);
      Take(Abort);
      r := Err(DaemonDown);
    }
  }

  /** What the client hears of the daemon's answer: a session, the benign race, or another error. */
  ghost predicate AsHeard(answer: Answer, r: Result<SessionId, ToggleError>) {
    match answer
    case Began(id) => r == Ok(id)
    case Busy(_) => r == Err(AlreadyActive)
    case Refused => r.Err? && r.error.Rpc?
  }

  /** A stop sent in `sent`, when `id` held the slot with its lifecycle live, is answered once it has been told. */
  ghost predicate StopHeard(id: SessionId, sent: World, now: World, r: Result<(), ToggleError>) {
    var slot := sent.d.mgr.slot;
    if slot.Some? && slot.value.sessionId == id && slot.value.stopHook.Some? then
      r == if Reply(id, Stopped) in now.d.replies then Ok(()) else Err(DaemonDown)
    else
      r.Err? && r.error.Rpc?
  }

  lemma StopIsHeard(id: SessionId, sent: World, now: World, r: Result<(), ToggleError>)
    requires if sent.d.mgr.StopDecision(id) == Stopped then
               r == if Reply(id, Stopped) in now.d.replies then Ok(()) else Err(DaemonDown)
             else r.Err? && r.error.Rpc?
    ensures StopHeard(id, sent, now, r)
  {
  }

  // A daemon step leaves the client where it is, with a call in flight if it had one.
  lemma DaemonLeavesClient(w: World, e: Event, mine: bool)
    requires Possible(w, Daemon(e, mine))
    ensures Make(w, Daemon(e, mine)) == DaemonMoves(w, e, mine)
    ensures var w' := DaemonMoves(w, e, mine); w'.phase == w.phase && (w'.own.NoCall? <==> w.own.NoCall?)
  {
    hide Do, SomeOpen, Instr, LeavesFile, SkipsSave, SkipsActive;
  }

  /**
     The calls one press makes, in order: it asks the daemon to start only if that was
     idle and no file was found, and to stop only the session the file named.
   */
  function Asked(accepted: bool, luck: Luck, s: Sight): (calls: seq<Toggle.RpcCall>)
    ensures forall p :: Toggle.StartCall(p) in calls <==>
              && accepted && luck.answered && s.asked.d.mgr.slot.None? && Found(luck.read, s.looked.d.active).None?
              && luck.profile == Some(p) && p != ""
    ensures forall id :: Toggle.StopCall(id) in calls <==>
              && accepted && luck.answered && s.asked.d.mgr.slot.Some?
              && Found(luck.read, s.looked.d.active) == Some(id)
  {
    var found := Found(luck.read, s.looked.d.active);
    if !accepted then []
    else if !luck.answered then [Toggle.RpcCall.GetStatus]
    else if s.asked.d.mgr.slot.Some? then
      if found.None? then [Toggle.RpcCall.GetStatus]
      else
        var calls := [Toggle.RpcCall.GetStatus, Toggle.StopCall(found.value)];
        assert calls[1] == Toggle.StopCall(found.value);
        calls
    else if found.Some? then [Toggle.RpcCall.GetStatus]
    else
      var calls := [Toggle.RpcCall.GetStatus] + AskedToStart(luck);
      assert |calls| == 3 ==> calls[2] == Toggle.StartCall(luck.profile.value);
      calls
  }

  /** The calls of a press that nothing stands against. */
  function AskedToStart(luck: Luck): seq<Toggle.RpcCall> {
    if luck.profile.None? || luck.profile.value == "" then [Toggle.RpcCall.GetActiveProfile]
    else [Toggle.RpcCall.GetActiveProfile, Toggle.StartCall(luck.profile.value)]
  }

  /** What a stop of `id` sent in `sent` comes to by `now`: told, if it held the slot with its lifecycle live. */
  ghost predicate StopComesTo(id: SessionId, sent: World, now: World, r: Result<Toggle.ToggleOutcome, ToggleError>) {
    var slot := sent.d.mgr.slot;
    if slot.Some? && slot.value.sessionId == id && slot.value.stopHook.Some? then
      r == if Reply(id, Stopped) in now.d.replies then Ok(Toggle.StoppingSession(id)) else Err(DaemonDown)
    else
      r.Err? && r.error.Rpc?
  }

  /** What asking for the profile, and then for a start, comes to. A lost race is a no-op, and nothing else is. */
  ghost predicate StartComesTo(luck: Luck, answer: Option<Answer>, r: Result<Toggle.ToggleOutcome, ToggleError>) {
    match luck.profile
    case None => r == Err(DaemonDown) && answer.None?
    case Some(p) =>
      if p == "" then r == Err(NoActiveProfile) && answer.None?
      else
        match answer
        case None => r == Err(DaemonDown)
        case Some(Began(id)) => r == Ok(Toggle.Started(id, p))
        case Some(Busy(_)) => r == Ok(Toggle.NoOp(Toggle.AlreadyRunning))
        case Some(Refused) => r.Err? && r.error.Rpc?
  }

  /** What an accepted press whose status call was answered comes to, from what it saw; it ends in `now`. */
  ghost predicate ComesTo(luck: Luck, s: Sight, answer: Option<Answer>, now: World,
                          r: Result<Toggle.ToggleOutcome, ToggleError>)
  {
    var found := Found(luck.read, s.looked.d.active);
    if s.asked.d.mgr.slot.Some? then
      && answer.None?
      && (if found.None? then r.Err? && r.error.Rpc? else StopComesTo(found.value, s.sent, now, r))
    else if found.Some? then r == Ok(Toggle.NoOp(Toggle.AlreadyDraining)) && answer.None?
    else StartComesTo(luck, answer, r)
  }

  /** The press asks for a start. */
  predicate Asks(luck: Luck, s: Sight) {
    && s.asked.d.mgr.slot.None? && Found(luck.read, s.looked.d.active).None?
    && luck.profile.Some? && luck.profile.value != ""
  }

  /** The press looked at the daemon where it says it did. */
  ghost predicate Looked(client: RecorderClient, n: nat, luck: Luck, s: Sight)
    reads client
  {
    && MadeIn(client.made, n, s.asked, Status)
    && MadeIn(client.made, n, s.looked,
              if s.asked.d.mgr.slot.Some? then ReadId(luck.read) else CheckFile(luck.read))
  }

  /** And sent its call, and heard its answer, where it says so. */
  ghost predicate Sent(client: RecorderClient, n: nat, luck: Luck, s: Sight, answer: Option<Answer>)
    reads client
  {
    && (s.asked.d.mgr.slot.Some? && Found(luck.read, s.looked.d.active).Some? ==>
          MadeIn(client.made, n, s.sent, SendStop))
    && (Asks(luck, s) ==> MadeIn(client.made, n, s.sent, SendStart))
    && (answer.Some? ==> MadeIn(client.made, n, s.heard, StartReturns) && s.heard.own == Answered(answer.value))
  }

  /** What the parts of a press leave behind. */
  ghost predicate Went(client: RecorderClient, calls: seq<Toggle.RpcCall>, made: seq<Made>, looks: nat,
                       more: seq<Toggle.RpcCall>)
    reads client
  {
    && client.Valid() && client.w.phase.Ready? && client.w.own.NoCall?
    && client.calls == calls + more && made <= client.made && looks <= client.looks
  }

  /** A busy daemon whose session the file named: a stop is sent to it. */
  method StopNamed(client: RecorderClient, id: SessionId, patience: nat)
    returns (r: Result<Toggle.ToggleOutcome, ToggleError>, ghost sent: World)
    requires client.Valid() && client.w.phase == SawRecording(id) && client.w.own.NoCall?
    modifies client
    ensures Went(client, old(client.calls), old(client.made), old(client.looks), [Toggle.StopCall(id)])
    ensures MadeIn(client.made, |old(client.made)|, sent, SendStop)
    ensures StopComesTo(id, sent, client.w, r)
  {
    hide Arises, RecorderClient.Valid, MadeIn;
    var stopped;
    stopped, sent := client.StopRecording(id, patience);
    if stopped.Err? {
      return Err(stopped.error), sent;
    }
    r := Ok(Toggle.StoppingSession(id));
  }

  /** An idle daemon and no file: the profile is asked for, and a start sent if there is one. */
  method StartNext(client: RecorderClient, luck: Luck)
    returns (r: Result<Toggle.ToggleOutcome, ToggleError>, ghost answer: Option<Answer>,
             ghost sent: World, ghost heard: World)
    requires client.Valid() && client.w.phase.NotDraining? && client.w.own.NoCall?
    modifies client
    ensures Went(client, old(client.calls), old(client.made), old(client.looks), AskedToStart(luck))
    ensures StartComesTo(luck, answer, r)
    ensures answer.Some? ==> MadeIn(client.made, |old(client.made)|, heard, StartReturns)
                             && heard.own == Answered(answer.value)
    ensures luck.profile.Some? && luck.profile.value != "" ==>
              && MadeIn(client.made, |old(client.made)|, sent, SendStart)
              && (answer.None? ==> client.looks >= old(client.looks) + 1 + luck.patience)
  {
    hide Arises, RecorderClient.Valid, MadeIn;
    answer, sent, heard := None, client.w, client.w;
    var profile := client.GetActiveProfile(luck.profile);
    if profile.Err? {
      return Err(profile.error), answer, sent, heard;
    }
    if profile.value == "" {
      return Err(NoActiveProfile), answer, sent, heard;
    }
    ghost var before := client.made;
    sent := client.w;
    var started;
    started, answer, heard := client.StartRecording(profile.value, luck.patience);
    MadeEarlier(client.made, |before|, |old(client.made)|, sent, SendStart);
    if answer.Some? {
      MadeEarlier(client.made, |before|, |old(client.made)|, heard, StartReturns);
    }
    match started {
      case Ok(id) => r := Ok(Toggle.Started(id, profile.value));
      case Err(e) =>
        r := if e == AlreadyActive then Ok(Toggle.NoOp(Toggle.AlreadyRunning)) else Err(e);
    }
  }

  /** An idle daemon: the file is checked before anything is asked for. */
  method StartIfFree(client: RecorderClient, luck: Luck)
    returns (r: Result<Toggle.ToggleOutcome, ToggleError>, ghost answer: Option<Answer>,
             ghost looked: World, ghost sent: World, ghost heard: World)
    requires client.Valid() && client.w.phase.SawIdle? && client.w.own.NoCall?
    modifies client
    ensures var found := Found(luck.read, looked.d.active);
            && Went(client, old(client.calls), old(client.made), old(client.looks),
                    if found.Some? then [] else AskedToStart(luck))
            && (if found.Some? then r == Ok(Toggle.NoOp(Toggle.AlreadyDraining)) && answer.None?
                else StartComesTo(luck, answer, r))
            && (found.None? && luck.profile.Some? && luck.profile.value != "" ==>
                  && MadeIn(client.made, |old(client.made)|, sent, SendStart)
                  && (answer.None? ==> client.looks >= old(client.looks) + 1 + luck.patience))
    ensures MadeIn(client.made, |old(client.made)|, looked, CheckFile(luck.read))
    ensures answer.Some? ==> MadeIn(client.made, |old(client.made)|, heard, StartReturns)
                             && heard.own == Answered(answer.value)
  {
    hide Arises, RecorderClient.Valid, MadeIn, StartComesTo, AskedToStart;
    answer, sent, heard := None, client.w, client.w;
    var present;
    present, looked := client.ReadActive(luck.read);
    if present {
      return Ok(Toggle.NoOp(Toggle.AlreadyDraining)), answer, looked, sent, heard;
    }
    ghost var before := client.made;
    r, answer, sent, heard := StartNext(client, luck);
    MadeLater(before, client.made, |old(client.made)|, looked, CheckFile(luck.read));
    if luck.profile.Some? && luck.profile.value != "" {
      MadeEarlier(client.made, |before|, |old(client.made)|, sent, SendStart);
    }
    if answer.Some? {
      MadeEarlier(client.made, |before|, |old(client.made)|, heard, StartReturns);
    }
  }

  /** An accepted press, once the status has been asked for. */
  method Act(client: RecorderClient, luck: Luck, status: Toggle.RecorderStatus, ghost s0: Sight)
    returns (r: Result<Toggle.ToggleOutcome, ToggleError>, ghost s: Sight, ghost answer: Option<Answer>)
    requires client.Valid() && client.w.own.NoCall? && luck.answered
    requires match status
             case IdleStatus => client.w.phase.SawIdle? && s0.asked.d.mgr.slot.None?
             case RecordingStatus(id) =>
               && client.w.phase == SawRecording(id) && s0.asked.d.mgr.slot.Some?
               && Found(luck.read, s0.looked.d.active) == Some(id)
    modifies client
    ensures s.asked == s0.asked && (status.RecordingStatus? ==> s.looked == s0.looked)
    ensures Went(client, old(client.calls), old(client.made), old(client.looks), Asked(true, luck, s)[1..])
    ensures ComesTo(luck, s, answer, client.w, r)
    ensures Sent(client, |old(client.made)|, luck, s, answer)
    ensures status.IdleStatus? ==> MadeIn(client.made, |old(client.made)|, s.looked, CheckFile(luck.read))
    ensures answer.None? && status.IdleStatus? && Asks(luck, s) ==>
              client.looks >= old(client.looks) + 1 + luck.patience
  {
    hide Arises, RecorderClient.Valid, MadeIn, StartComesTo, StopComesTo;
    s, answer := s0, None;
    match status {
      case RecordingStatus(id) =>
        ghost var sent;
        r, sent := StopNamed(client, id, luck.patience);
        s := s.(sent := sent);
      case IdleStatus =>
        ghost var looked, sent, heard;
        r, answer, looked, sent, heard := StartIfFree(client, luck);
        s := s.(looked := looked, sent := sent, heard := heard);
    }
  }

  lemma NothingSent(client: RecorderClient, n: nat, luck: Luck, s: Sight)
    requires s.asked.d.mgr.slot.Some? && Found(luck.read, s.looked.d.active).None?
    requires MadeIn(client.made, n, s.asked, Status) && MadeIn(client.made, n, s.looked, ReadId(luck.read))
    ensures Looked(client, n, luck, s) && Sent(client, n, luck, s, None) && !Asks(luck, s)
  {
    hide MadeIn;
  }

  // What was true of the moves before the calls were sent still is.
  lemma ActLooked(client: RecorderClient, before: seq<Made>, n: nat, luck: Luck, s: Sight, answer: Option<Answer>)
    requires before <= client.made && n <= |before| && MadeIn(before, n, s.asked, Status)
    requires if s.asked.d.mgr.slot.Some? then MadeIn(before, n, s.looked, ReadId(luck.read))
             else MadeIn(client.made, |before|, s.looked, CheckFile(luck.read))
    requires Sent(client, |before|, luck, s, answer)
    ensures Looked(client, n, luck, s) && Sent(client, n, luck, s, answer)
    ensures s.asked.d.mgr.slot.Some? ==> !Asks(luck, s)
  {
    hide MadeIn;
    MadeLater(before, client.made, n, s.asked, Status);
    if s.asked.d.mgr.slot.Some? {
      MadeLater(before, client.made, n, s.looked, ReadId(luck.read));
      if Found(luck.read, s.looked.d.active).Some? {
        MadeEarlier(client.made, |before|, n, s.sent, SendStop);
      }
    } else {
      MadeEarlier(client.made, |before|, n, s.looked, CheckFile(luck.read));
      if Asks(luck, s) {
        MadeEarlier(client.made, |before|, n, s.sent, SendStart);
      }
    }
    if answer.Some? {
      MadeEarlier(client.made, |before|, n, s.heard, StartReturns);
    }
  }

  lemma RejectedAsksNothing(luck: Luck, s: Sight)
    ensures Asked(false, luck, s) == []
  {
  }

  /** A press that the gate has accepted. */
  method AcceptedPress(client: RecorderClient, luck: Luck)
    returns (r: Result<Toggle.ToggleOutcome, ToggleError>, ghost s: Sight, ghost answer: Option<Answer>)
    requires client.Valid() && client.w.phase.Ready? && client.w.own.NoCall?
    modifies client
    ensures Went(client, old(client.calls), old(client.made), old(client.looks), Asked(true, luck, s))
    ensures !luck.answered ==> r == Err(DaemonDown)
    ensures luck.answered ==>
              && Looked(client, |old(client.made)|, luck, s) && Sent(client, |old(client.made)|, luck, s, answer)
              && ComesTo(luck, s, answer, client.w, r)
    ensures luck.answered && Asks(luck, s) && answer.None? ==>
              client.looks >= old(client.looks) + 1 + luck.patience
  {
    hide Arises, RecorderClient.Valid, MadeIn, StartComesTo, StopComesTo, Sent, Looked, Asks, AskedToStart;
    s, answer := Sight(client.w, client.w, client.w, client.w), None;
    client.Take(Press);
    var status;
    ghost var asked, looked, before;
    status, asked, looked := client.GetStatus(luck.answered, luck.read);
    s := s.(asked := asked, looked := looked);
    before := client.made;
    if luck.answered {
      MadeEarlier(before, |old(client.made)| + 1, |old(client.made)|, asked, Status);
      if asked.d.mgr.slot.Some? {
        MadeEarlier(before, |old(client.made)| + 1, |old(client.made)|, looked, ReadId(luck.read));
      }
    }
    if status.Err? {
      if luck.answered {
        NothingSent(client, |old(client.made)|, luck, s);
      }
      return Err(status.error), s, answer;
    }
    r, s, answer := Act(client, luck, status.value, s);
    ActLooked(client, before, |old(client.made)|, luck, s, answer);
  }

  /**
     One press. `stopAt` is the second reading of the clock, taken after a stop was
     answered; the gate's own verdict uses the first. `answer` is what the daemon made
     of a start call it answered.
   */
  method ToggleOnce(client: RecorderClient, gate: Toggle.Debouncer, now: nat, stopAt: nat, luck: Luck)
    returns (r: Result<Toggle.ToggleOutcome, ToggleError>, ghost s: Sight, ghost answer: Option<Answer>)
    requires client.Valid() && client.w.phase.Ready? && client.w.own.NoCall?
    modifies client, gate
    // every move is one the machine may make, and the next press can follow
    ensures client.Valid() && client.w.phase.Ready? && client.w.own.NoCall?
    ensures client.calls == old(client.calls) + Asked(old(gate.View()).Verdict(now).Ok?, luck, s)
    ensures var v := old(gate.View()).Verdict(now);
            v.Err? ==> r == Err(v.error) && gate.View() == old(gate.View()) && client.w == old(client.w)
    // the cooldown is armed exactly by an answered stop
    ensures gate.View() == (if r.Ok? && r.value.StoppingSession? then old(gate.View()).Pressed(now).Stopped(stopAt)
                            else old(gate.View()).Pressed(now))
    // an accepted press comes to what the daemon was when it looked
    ensures old(gate.View()).Verdict(now).Ok? && !luck.answered ==> r == Err(DaemonDown)
    ensures old(gate.View()).Verdict(now).Ok? && luck.answered ==>
              && Looked(client, |old(client.made)|, luck, s) && Sent(client, |old(client.made)|, luck, s, answer)
              && ComesTo(luck, s, answer, client.w, r)
    // and gives up on a start only after it has waited
    ensures old(gate.View()).Verdict(now).Ok? && luck.answered && Asks(luck, s) && answer.None? ==>
              client.looks >= old(client.looks) + 1 + luck.patience
  {
    hide Arises, RecorderClient.Valid, MadeIn, ComesTo, Sent, Looked, Asks, Asked;
    s, answer := Sight(client.w, client.w, client.w, client.w), None;
    var verdict := gate.TryAccept(now);
    if verdict.Err? {
      RejectedAsksNothing(luck, s);
      return Err(verdict.error), s, answer;
    }
    r, s, answer := AcceptedPress(client, luck);
    if r.Ok? && r.value.StoppingSession? {
      gate.NoteStop(stopAt);
    }
  }
}
