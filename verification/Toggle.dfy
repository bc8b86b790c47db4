/**
 The time gate of the hotkey toggle in `crates/zwhisper-hotkey/src/toggle.rs`, over
 any history of presses and stops, and the words in which a press is answered.
 */
module Toggle {
  import opened Wrappers
  import opened RpcErrors
  import opened SessionManagers

  const NANOS_PER_MS: nat := 1_000_000

  // ---- Debouncer ---------------------------------------------------------------

  /** The gate's state. Instants are nanoseconds on one monotonic clock. */
  datatype Gate = Gate(lastAccept: Option<nat>, lastStop: Option<nat>, debounceMs: nat, cooldownMs: nat) {
    function Debounce(): nat {
      debounceMs * NANOS_PER_MS
    }

    function Cooldown(): nat {
      cooldownMs * NANOS_PER_MS
    }

    /** `now` is inside the window that opened at `at`; an instant before it is outside. */
    static predicate Within(at: Option<nat>, now: nat, window: nat) {
      at.Some? && now >= at.value && now - at.value < window
    }

    /** The gate's verdict. Cooldown is reported in preference to debounce. */
    function Verdict(now: nat): Result<(), ToggleError> {
      if Within(lastStop, now, Cooldown()) then Err(CoolingDown(cooldownMs))
      else if Within(lastAccept, now, Debounce()) then Err(Debounced(debounceMs))
      else Ok(())
    }

    function Pressed(now: nat): Gate {
      if Verdict(now).Ok? then this.(lastAccept := Some(now)) else this
    }

    function Stopped(now: nat): Gate {
      this.(lastStop := Some(now))
    }
  }

  class Debouncer {
    var lastAccept: Option<nat>
    var lastStop: Option<nat>
    var debounceMs: nat
    var cooldownMs: nat

    ghost function View(): Gate
      reads this
    {
      Gate(lastAccept, lastStop, debounceMs, cooldownMs)
    }

    constructor (debounceMs: nat, cooldownMs: nat)
      ensures View() == Gate(None, None, debounceMs, cooldownMs)
    {
      this.debounceMs, this.cooldownMs := debounceMs, cooldownMs;
      lastAccept, lastStop := None, None;
    }

    method TryAccept(now: nat) returns (r: Result<(), ToggleError>)
      modifies this
      ensures r == old(View()).Verdict(now) && View() == old(View()).Pressed(now)
      // within a cooldown of a stop that is not in the future, whatever else
      ensures r == Err(CoolingDown(cooldownMs)) <==>
                old(lastStop).Some? && now >= old(lastStop).value && now - old(lastStop).value < cooldownMs * 1_000_000
      // otherwise within a debounce of the last accepted press
      ensures r.Err? && r != Err(CoolingDown(cooldownMs)) <==>
                && (old(lastStop).Some? && now >= old(lastStop).value ==>
                      now - old(lastStop).value >= cooldownMs * 1_000_000)
                && old(lastAccept).Some? && now >= old(lastAccept).value
                && now - old(lastAccept).value < debounceMs * 1_000_000
      ensures r.Err? ==> r.error in {CoolingDown(cooldownMs), Debounced(debounceMs)}
      ensures lastAccept == if r.Ok? then Some(now) else old(lastAccept)
      ensures lastStop == old(lastStop) && debounceMs == old(debounceMs) && cooldownMs == old(cooldownMs)
    {
      match lastStop {
        case Some(stopAt) =>
          if now >= stopAt && now - stopAt < cooldownMs * NANOS_PER_MS {
            return Err(CoolingDown(cooldownMs));
          }
        case None =>
      }
      match lastAccept {
        case Some(acceptAt) =>
          if now >= acceptAt && now - acceptAt < debounceMs * NANOS_PER_MS {
            return Err(Debounced(debounceMs));
          }
        case None =>
      }
      lastAccept := Some(now);
      r := Ok(());
    }

    method NoteStop(now: nat)
      modifies this
      ensures View() == old(View()).Stopped(now)
      ensures lastStop == Some(now) && lastAccept == old(lastAccept)
      ensures debounceMs == old(debounceMs) && cooldownMs == old(cooldownMs)
    {
      lastStop := Some(now);
    }
  }

  // ---- The gate over any sequence of presses and stops ---------------------------

  datatype GateEvent = Press(at: nat) | Stop(at: nat)

  function Step(g: Gate, e: GateEvent): Gate {
    match e
    case Press(at) => g.Pressed(at)
    case Stop(at) => g.Stopped(at)
  }

  /** A fresh gate after the first `n` events. */
  function GateAt(debounceMs: nat, cooldownMs: nat, es: seq<GateEvent>, n: nat): (g: Gate)
    requires n <= |es|
    ensures g.debounceMs == debounceMs && g.cooldownMs == cooldownMs
  {
    if n == 0 then Gate(None, None, debounceMs, cooldownMs)
    else Step(GateAt(debounceMs, cooldownMs, es, n - 1), es[n - 1])
  }

  predicate Accepted(debounceMs: nat, cooldownMs: nat, es: seq<GateEvent>, i: nat)
    requires i < |es|
  {
    es[i].Press? && GateAt(debounceMs, cooldownMs, es, i).Verdict(es[i].at).Ok?
  }

  ghost predicate InTimeOrder(es: seq<GateEvent>) {
    forall i, j | 0 <= i <= j < |es| :: es[i].at <= es[j].at
  }

  // The gate remembers the latest stop and the latest accepted press.
  lemma {:induction false} GateRemembers(d: nat, c: nat, es: seq<GateEvent>, i: nat, n: nat)
    requires InTimeOrder(es) && i < n <= |es|
    ensures
      var g := GateAt(d, c, es, n);
      && (es[i].Stop? ==> g.lastStop.Some? && es[i].at <= g.lastStop.value <= es[n - 1].at)
      && (Accepted(d, c, es, i) ==> g.lastAccept.Some? && es[i].at <= g.lastAccept.value <= es[n - 1].at)
    decreases n
  {
    if i < n - 1 {
      GateRemembers(d, c, es, i, n - 1);
    }
  }

  // Accepted presses are a debounce apart, and a cooldown after every earlier stop.
  lemma AcceptsAreSpaced(d: nat, c: nat, es: seq<GateEvent>, i: nat, j: nat)
    requires InTimeOrder(es) && i < j < |es| && Accepted(d, c, es, j)
    ensures Accepted(d, c, es, i) ==> es[j].at - es[i].at >= d * 1_000_000
    ensures es[i].Stop? ==> es[j].at - es[i].at >= c * 1_000_000
  {
    GateRemembers(d, c, es, i, j);
  }

  // The gate remembers nothing that did not happen.
  lemma {:induction false} GateInventsNothing(d: nat, c: nat, es: seq<GateEvent>, n: nat)
    requires n <= |es|
    ensures
      var g := GateAt(d, c, es, n);
      && (g.lastStop.Some? ==> exists i :: 0 <= i < n && es[i] == Stop(g.lastStop.value))
      && (g.lastAccept.Some? ==> exists i :: 0 <= i < n && es[i] == Press(g.lastAccept.value) && Accepted(d, c, es, i))
  {
    if n > 0 {
      GateInventsNothing(d, c, es, n - 1);
      assert es[n - 1] == Stop(es[n - 1].at) || es[n - 1] == Press(es[n - 1].at);
    }
  }

  // With no reference to the gate's state: a press is rejected if and only if some earlier stop is less
  // than a cooldown ago, or some earlier accepted press less than a debounce ago.
  lemma RejectedByHistory(d: nat, c: nat, es: seq<GateEvent>, j: nat)
    requires InTimeOrder(es) && j < |es| && es[j].Press?
    ensures !Accepted(d, c, es, j) <==>
              || (exists i :: 0 <= i < j && es[i].Stop? && es[j].at - es[i].at < c * 1_000_000)
              || (exists i :: 0 <= i < j && Accepted(d, c, es, i) && es[j].at - es[i].at < d * 1_000_000)
  {
    if Accepted(d, c, es, j) {
      forall i | 0 <= i < j {
        AcceptsAreSpaced(d, c, es, i, j);
      }
    } else {
      GateInventsNothing(d, c, es, j);
    }
  }

  /** The indices below `n` of the accepted presses, in order. */
  function Accepts(d: nat, c: nat, es: seq<GateEvent>, n: nat): (r: seq<nat>)
    requires n <= |es|
    ensures forall k | 0 <= k < |r| :: r[k] < n && Accepted(d, c, es, r[k])
    ensures forall k, l | 0 <= k < l < |r| :: r[k] < r[l]
  {
    if n == 0 then []
    else
      var before := Accepts(d, c, es, n - 1);
      if Accepted(d, c, es, n - 1) then before + [n - 1] else before
  }

  /** When each accepted press came. */
  function AcceptTimes(d: nat, c: nat, es: seq<GateEvent>): seq<nat> {
    var r := Accepts(d, c, es, |es|);
    seq(|r|, k requires 0 <= k < |r| => es[r[k]].at)
  }

  ghost predicate Spaced(ts: seq<nat>, step: nat) {
    forall k | 0 < k < |ts| :: ts[k - 1] + step <= ts[k]
  }

  lemma AcceptTimesAreSpaced(d: nat, c: nat, es: seq<GateEvent>)
    requires InTimeOrder(es)
    ensures Spaced(AcceptTimes(d, c, es), d * 1_000_000)
  {
    var r := Accepts(d, c, es, |es|);
    forall k | 0 < k < |r|
      ensures es[r[k]].at - es[r[k - 1]].at >= d * 1_000_000
    {
      AcceptsAreSpaced(d, c, es, r[k - 1], r[k]);
    }
  }

  lemma {:induction false} SpacedSpread(ts: seq<nat>, step: nat, k: nat, l: nat)
    requires Spaced(ts, step) && k <= l < |ts|
    ensures ts[k] + (l - k) * step <= ts[l]
    decreases l
  {
    if k < l {
      SpacedSpread(ts, step, k, l - 1);
      assert (l - k) * step == (l - 1 - k) * step + step;
    }
  }

  // A window of length `w` holds at most w / debounce + 1 accepted presses.
  lemma WindowHoldsFew(d: nat, c: nat, es: seq<GateEvent>, k: nat, l: nat, w: nat)
    requires InTimeOrder(es) && d > 0 && k <= l < |AcceptTimes(d, c, es)|
    requires AcceptTimes(d, c, es)[l] - AcceptTimes(d, c, es)[k] <= w
    ensures l - k + 1 <= w / (d * 1_000_000) + 1
  {
    AcceptTimesAreSpaced(d, c, es);
    SpacedSpread(AcceptTimes(d, c, es), d * 1_000_000, k, l);
    DivisionBounds(l - k, w, d * 1_000_000);
  }

  lemma {:induction false} ProductsGrow(a: nat, b: nat, step: nat)
    requires a <= b
    ensures a * step <= b * step
    decreases b
  {
    if a < b {
      ProductsGrow(a, b - 1, step);
      assert b * step == (b - 1) * step + step;
    }
  }

  lemma DivisionBounds(n: nat, w: nat, step: nat)
    requires step > 0 && n * step <= w
    ensures n <= w / step
  {
    var q := w / step;
    var next := (q + 1) * step;
    assert next == q * step + step;
    assert w < next;
    if q + 1 <= n {
      ProductsGrow(q + 1, n, step);
    }
  }

  // ---- toggle_once ------------------------------------------------------------------

  datatype RecorderStatus = IdleStatus | RecordingStatus(sessionId: SessionId)

  datatype NoOpReason = AlreadyDraining | AlreadyRunning

  datatype ToggleOutcome =
    | Started(sessionId: SessionId, profile: string)
    | StoppingSession(stopping: SessionId)
    | NoOp(reason: NoOpReason)

  datatype RpcCall = GetStatus | GetActiveProfile | StartCall(profile: string) | StopCall(stopId: SessionId)
}
