/**
 * One asio timer as `TimerService` uses it. Assumed of asio: `expires_after` and
 * `cancel` turn every armed wait into a cancelled one, whose handler runs with an
 * error; a wait that has expired already keeps its place and runs without one.
 */
module Timers {
  datatype Phase = Armed | Expired | Cancelled

  /** A wait whose handler has not run yet. Each `async_wait` has its own serial number. */
  datatype Wait = Wait(phase: Phase, periodic: bool, serial: nat)

  /** What `cancel` and `expires_after` do to the outstanding waits. */
  function CancelAll(waits: seq<Wait>): (r: seq<Wait>)
    ensures |r| == |waits|
    ensures forall i :: 0 <= i < |waits| ==>
              r[i] == if waits[i].phase == Armed then waits[i].(phase := Cancelled) else waits[i]
  {
    if waits == [] then []
    else [if waits[0].phase == Armed then waits[0].(phase := Cancelled) else waits[0]] + CancelAll(waits[1..])
  }

  function Arm(waits: seq<Wait>, periodic: bool, serial: nat): seq<Wait> {
    CancelAll(waits) + [Wait(Armed, periodic, serial)]
  }

  function Expire(waits: seq<Wait>, i: nat): seq<Wait>
    requires i < |waits|
  {
    waits[i := waits[i].(phase := Expired)]
  }

  function Take(waits: seq<Wait>, i: nat): seq<Wait>
    requires i < |waits|
  {
    waits[..i] + waits[i + 1..]
  }

  /** At most one wait is armed, and no two share a serial number, all below `bound`. */
  predicate WaitsOk(waits: seq<Wait>, bound: nat) {
    && (forall i, j :: 0 <= i < j < |waits| ==> waits[i].serial != waits[j].serial)
    && (forall i, j :: 0 <= i < j < |waits| ==> waits[i].phase != Armed || waits[j].phase != Armed)
    && (forall i :: 0 <= i < |waits| ==> waits[i].serial < bound)
  }

  /** The wait `serial` will still call back without an error. */
  predicate Due(waits: seq<Wait>, serial: nat) {
    exists i :: 0 <= i < |waits| && waits[i].serial == serial && waits[i].phase != Cancelled
  }
}
