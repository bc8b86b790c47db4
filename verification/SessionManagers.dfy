/**
 The single-session policy of `crates/zwhisperd/src/session.rs`.

 `Manager` is the abstract state; `SessionManager` is the object the daemon
 mutates in place. A stop hook is named by the session whose recorder its stop
 handle writes to, and a task handle by the session whose lifecycle it joins.
 Neither `InstallStopHook` nor `Release` takes a session id: that they act on the
 caller's own session is proved about the protocol, not promised here.
 */
module SessionManagers {
  import opened Wrappers
  import opened RpcErrors

  type SessionId = string

  datatype ActiveSession = ActiveSession(sessionId: SessionId, profileName: string, stopHook: Option<SessionId>)

  datatype StopAttempt = Stopped | Unknown | NotReady

  datatype Manager = Manager(slot: Option<ActiveSession>, tasks: seq<SessionId>, inflight: nat) {
    function Reserve(id: SessionId, profile: string): Manager {
      this.(slot := Some(ActiveSession(id, profile, None)))
    }

    function InstallStopHook(hook: SessionId): Manager {
      match slot
      case None => this
      case Some(session) => this.(slot := Some(session.(stopHook := Some(hook))))
    }

    /** The hook `request_stop_active` clones out under the lock. */
    function ActiveHook(): Option<SessionId> {
      if slot.Some? then slot.value.stopHook else None
    }

    /** What `try_stop` decides under the lock. On `Stopped` the cloned hook is `ActiveHook()`. */
    function StopDecision(id: SessionId): StopAttempt {
      match slot
      case Some(session) =>
        if session.sessionId != id then Unknown
        else if session.stopHook.None? then NotReady
        else Stopped
      case None => Unknown
    }

    function Release(): Manager {
      this.(slot := None)
    }

    function BeginStart(): Manager {
      this.(inflight := inflight + 1)
    }

    function EndStart(): Manager {
      this.(inflight := if inflight == 0 then 0 else inflight - 1)
    }

    function RegisterLifecycle(handle: SessionId, finished: set<SessionId>): Manager {
      this.(tasks := Unfinished(tasks, finished) + [handle])
    }

    function TakeLifecycleTasks(): Manager {
      this.(tasks := [])
    }
  }

  /** The handles `retain` keeps. */
  function Unfinished(tasks: seq<SessionId>, finished: set<SessionId>): seq<SessionId> {
    if tasks == [] then []
    else (if tasks[0] in finished then [] else [tasks[0]]) + Unfinished(tasks[1..], finished)
  }

  // Pruning drops the finished handles and no other.
  lemma {:induction false} PruningKeepsUnfinished(tasks: seq<SessionId>, finished: set<SessionId>, t: SessionId)
    ensures t in Unfinished(tasks, finished) <==> t in tasks && t !in finished
  {
    if tasks != [] {
      PruningKeepsUnfinished(tasks[1..], finished, t);
      assert t in tasks <==> t == tasks[0] || t in tasks[1..];
    }
  }

  lemma {:induction false} UnfinishedSnoc(tasks: seq<SessionId>, t: SessionId, finished: set<SessionId>)
    ensures Unfinished(tasks + [t], finished)
         == Unfinished(tasks, finished) + (if t in finished then [] else [t])
  {
    if tasks == [] {
      assert (tasks + [t])[1..] == [];
    } else {
      assert (tasks + [t])[1..] == tasks[1..] + [t];
      UnfinishedSnoc(tasks[1..], t, finished);
    }
  }

  class SessionManager {
    var inner: Option<ActiveSession>
    var lifecycleTasks: seq<SessionId>
    var inflightStarts: nat

    ghost function View(): Manager
      reads this
    {
      Manager(inner, lifecycleTasks, inflightStarts)
    }

    constructor ()
      ensures View() == Manager(None, [], 0)
    {
      inner, lifecycleTasks, inflightStarts := None, [], 0;
    }

    method TryReserve(id: SessionId, profile: string) returns (r: Result<(), RpcError>)
      modifies this
      ensures old(inner).None? ==> r == Ok(()) && View() == old(View()).Reserve(id, profile)
      ensures old(inner).None? ==> inner == Some(ActiveSession(id, profile, None))
      ensures lifecycleTasks == old(lifecycleTasks) && inflightStarts == old(inflightStarts)
      ensures old(inner).Some? ==> r == Err(SessionInUse(old(inner).value.sessionId)) && View() == old(View())
    {
      if inner.Some? {
        return Err(SessionInUse(inner.value.sessionId));
      }
      inner := Some(ActiveSession(id, profile, None));
      r := Ok(());
    }

    method InstallStopHook(hook: SessionId)
      modifies this
      ensures View() == old(View()).InstallStopHook(hook)
      ensures old(inner).None? ==> inner.None?
      ensures old(inner).Some? ==>
                inner == Some(ActiveSession(old(inner).value.sessionId, old(inner).value.profileName, Some(hook)))
      ensures lifecycleTasks == old(lifecycleTasks) && inflightStarts == old(inflightStarts)
    {
      if inner.Some? {
        inner := Some(inner.value.(stopHook := Some(hook)));
      }
    }

    /** The locked half of `request_stop_active`; the caller then fires the hook. */
    method CloneActiveHook() returns (hook: Option<SessionId>)
      ensures hook == View().ActiveHook() && hook == if inner.Some? then inner.value.stopHook else None
    {
      if inner.None? {
        return None;
      }
      hook := inner.value.stopHook;
    }

    /** The locked half of `try_stop`; the caller then fires the hook, if there is one. */
    method TryStop(id: SessionId) returns (attempt: StopAttempt, hook: Option<SessionId>)
      ensures attempt == View().StopDecision(id)
      ensures attempt == if inner.None? || inner.value.sessionId != id then Unknown
                         else if inner.value.stopHook.None? then NotReady
                         else Stopped
      ensures hook == if attempt == Stopped then inner.value.stopHook else None
      ensures attempt == Stopped <==> hook.Some?
    {
      match inner
      case Some(active) =>
        if active.sessionId == id {
          if active.stopHook.Some? {
            attempt, hook := Stopped, active.stopHook;
          } else {
            attempt, hook := NotReady, None;
          }
        } else {
          attempt, hook := Unknown, None;
        }
      case None =>
        attempt, hook := Unknown, None;
    }

    method Release()
      modifies this
      ensures View() == old(View()).Release()
      ensures inner.None? && lifecycleTasks == old(lifecycleTasks) && inflightStarts == old(inflightStarts)
    {
      inner := None;
    }

    method BeginStart()
      modifies this
      ensures View() == old(View()).BeginStart() && inflightStarts == old(inflightStarts) + 1
      ensures inner == old(inner) && lifecycleTasks == old(lifecycleTasks)
    {
      inflightStarts := inflightStarts + 1;
    }

    /** The guard's drop. A live guard has counted itself, so the counter is not zero. */
    method DropGuard()
      requires inflightStarts > 0
      modifies this
      ensures View() == old(View()).EndStart() && inflightStarts == old(inflightStarts) - 1
      ensures inner == old(inner) && lifecycleTasks == old(lifecycleTasks)
    {
      inflightStarts := inflightStarts - 1;
    }

    method RegisterLifecycle(handle: SessionId, finished: set<SessionId>)
      modifies this
      ensures View() == old(View()).RegisterLifecycle(handle, finished)
      ensures lifecycleTasks == Unfinished(old(lifecycleTasks), finished) + [handle]
      ensures inner == old(inner) && inflightStarts == old(inflightStarts)
    {
      var kept := [];
      for i := 0 to |lifecycleTasks|
        invariant unchanged(this)
        invariant kept == Unfinished(lifecycleTasks[..i], finished)
      {
        UnfinishedSnoc(lifecycleTasks[..i], lifecycleTasks[i], finished);
        assert lifecycleTasks[..i] + [lifecycleTasks[i]] == lifecycleTasks[..i + 1];
        if lifecycleTasks[i] !in finished {
          kept := kept + [lifecycleTasks[i]];
        }
      }
      assert lifecycleTasks[..|lifecycleTasks|] == lifecycleTasks;
      lifecycleTasks := kept + [handle];
    }

    method TakeLifecycleTasks() returns (taken: seq<SessionId>)
      modifies this
      ensures taken == old(lifecycleTasks) && View() == old(View()).TakeLifecycleTasks()
      ensures lifecycleTasks == [] && inner == old(inner) && inflightStarts == old(inflightStarts)
    {
      taken := lifecycleTasks;
      lifecycleTasks := [];
    }
  }
}
