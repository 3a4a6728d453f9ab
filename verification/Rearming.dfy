/** What every periodic callback does when it returns, whatever it has done before. */
module Rearming {
  import opened Timers
  import opened Suspension
  import opened SuspensionInvariant
  import opened TimerRuns
  import opened StoppedTimers
  import opened NonOverlap
  import opened Resuming

  // ---------------------------------------------------------------------------
  // Each periodic callback arms its timer once
  // ---------------------------------------------------------------------------

  /** The step gives timer `t` a wait that no timer had before. */
  predicate Arms(s: State, e: Event, t: nat)
    requires Enabled(s, e)
  {
    && t < |s.timers| && t < |Step(s, e).timers|
    && exists i :: 0 <= i < |Step(s, e).timers[t].waits| && Step(s, e).timers[t].waits[i].serial == s.serial
  }

  predicate RearmsTimer(s: State, e: Event, t: nat) {
    IsRearm(s, e) && s.stack[0].timer == t
  }

  /** The step begins a periodic callback of timer `t`. */
  predicate BeginsPeriodic(s: State, e: Event, t: nat)
    requires Enabled(s, e)
  {
    FiresTimer(s, e, t) && s.timers[t].waits[e.i].periodic
  }

  /** How many periodic callbacks of timer `t` begin in a run. */
  function PeriodicCallbacks(s: State, es: seq<Event>, t: nat): nat
    requires Legal(s, es)
    decreases |es|
  {
    if es == [] then 0
    else (if BeginsPeriodic(s, es[0], t) then 1 else 0) + PeriodicCallbacks(Step(s, es[0]), es[1..], t)
  }

  /** How often timer `t` is armed in a run other than by a call of `start` or `startPeriodic`. */
  function Rearmings(s: State, es: seq<Event>, t: nat): nat
    requires Legal(s, es)
    decreases |es|
  {
    if es == [] then 0
    else
      (if Arms(s, es[0], t) && !(es[0].StartTimer? && es[0].t == t) then 1 else 0)
      + Rearmings(Step(s, es[0]), es[1..], t)
  }

  function RunningNow(s: State, t: nat): nat {
    if InPeriodicCallback(s, t) then 1 else 0
  }

  /** Only a start and the return of a periodic callback arm a timer. */
  lemma ArmsExactly(s: State, e: Event, t: nat)
    requires Structure(s) && Enabled(s, e) && t < |s.timers|
    ensures Arms(s, e, t) <==> (e.StartTimer? && e.t == t) || RearmsTimer(s, e, t)
  {
    var waits := s.timers[t].waits;
    assert TimerOk(s.timers[t], s.serial, |s.queues|);
    TimerStep(s, e, t);
    if (e.StartTimer? && e.t == t) || RearmsTimer(s, e, t) {
      assert Step(s, e).timers[t].waits[|waits|].serial == s.serial;
    } else {
      NothingArmed(s, e, t);
    }
  }

  lemma NothingArmed(s: State, e: Event, t: nat)
    requires Structure(s) && Enabled(s, e) && t < |s.timers| && !(e.StartTimer? && e.t == t) && !RearmsTimer(s, e, t)
    ensures Gone(NextWaits(s, e, t), s.serial)
  {
    var waits := s.timers[t].waits;
    assert TimerOk(s.timers[t], s.serial, |s.queues|);
    assert Gone(waits, s.serial);
    if e.Dispatch? && e.t == t {
      GoneTake(waits, e.i, s.serial, s.serial);
    } else {
      GoneKept(waits, s.serial);
    }
  }

  /** A callback of a timer leaves the stack only when it returns. */
  lemma FrameStays(s: State, e: Event, f: Frame)
    requires Structure(s) && Enabled(s, e) && f.TimerCallback? && f in s.stack && !(e == Return && f == s.stack[0])
    ensures f in Step(s, e).stack
  {
    if e == Return {
      Resuming.ReturnKeepsFrame(s, f);
    } else if e == EndLaunch {
      assert f in s.stack[1..];
    } else if IsStart(e) || e.StopTimer? || e.DropContext? {
      CallsPush(s, e);
      PushKeeps(s, Step(s, e), f);
    } else if e.Connected? || e.Respond? {
      ResponsePushes(s, e);
      PushKeeps(s, Step(s, e), f);
    } else {
      OthersPush(s, e);
      PushKeeps(s, Step(s, e), f);
    }
  }

  lemma PushKeeps(s: State, u: State, f: Frame)
    requires PushesCalls(s, u) && f in s.stack && f.TimerCallback?
    ensures f in u.stack
  {
    if u.stack != s.stack && u.stack[1..] != s.stack {
      assert f in s.stack[1..];
    }
  }

  lemma RunningStep(s: State, e: Event, t: nat)
    requires Structure(s) && HandlersAtBottom(s) && Enabled(s, e)
    ensures RunningNow(Step(s, e), t) + (if RearmsTimer(s, e, t) then 1 else 0)
         == RunningNow(s, t) + if BeginsPeriodic(s, e, t) then 1 else 0
  {
    var u := Step(s, e);
    if RearmsTimer(s, e, t) {
      assert s.stack[0] in s.stack && |s.stack| == 1;
      RearmEmpties(s);
    } else if BeginsPeriodic(s, e, t) {
      assert u.stack == [TimerCallback(t, s.timers[t].waits[e.i].serial, true)];
    } else if InPeriodicCallback(s, t) {
      var f :| f in s.stack && f.TimerCallback? && f.timer == t && f.periodic;
      FrameStays(s, e, f);
    } else if InPeriodicCallback(u, t) {
      var f :| f in u.stack && f.TimerCallback? && f.timer == t && f.periodic;
      NoNewFrame(s, e, f);
    }
  }

  lemma RearmEmpties(s: State)
    requires Enabled(s, Return) && IsRearm(s, Return) && |s.stack| == 1
    ensures Step(s, Return).stack == []
  {
  }

  lemma NoNewFrame(s: State, e: Event, f: Frame)
    requires Enabled(s, e) && f.TimerCallback? && f.periodic && f in Step(s, e).stack && !BeginsPeriodic(s, e, f.timer)
    ensures f in s.stack
  {
    FramesNext(s, e, f);
  }

  lemma {:induction false} RearmingsFrom(s: State, es: seq<Event>, t: nat)
    requires Structure(s) && RunningGone(s) && HandlersAtBottom(s) && Legal(s, es)
    ensures PeriodicCallbacks(s, es, t) + RunningNow(s, t) == Rearmings(s, es, t) + RunningNow(Run(s, es), t)
    decreases |es|
  {
    if es != [] {
      var e := es[0];
      InvariantsStep(s, e);
      RunningStep(s, e, t);
      if t < |s.timers| {
        ArmsExactly(s, e, t);
      }
      RearmingsFrom(Step(s, e), es[1..], t);
    }
  }

  /**
   * In every run, a timer is armed by itself exactly once for every periodic
   * callback of it that has returned: for every one that has begun, but for the
   * one that is running.
   */
  lemma EachPeriodicCallbackRearmsOnce(es: seq<Event>, t: nat)
    requires Legal(INIT, es)
    ensures PeriodicCallbacks(INIT, es, t)
         == Rearmings(INIT, es, t) + if InPeriodicCallback(Run(INIT, es), t) then 1 else 0
  {
    RearmingsFrom(INIT, es, t);
  }

  // ---------------------------------------------------------------------------
  // A periodic callback that stops its own timer
  // ---------------------------------------------------------------------------

  /** Timer `t` has one armed wait, with this serial number, and its queue, if it is the current one, waits for it. */
  predicate ArmedOnce(s: State, t: nat, serial: nat) {
    && t < |s.timers| && s.timers[t].waits != []
    && s.timers[t].waits[|s.timers[t].waits| - 1] == Wait(Armed, true, serial)
    && (forall i :: 0 <= i < |s.timers[t].waits| - 1 ==> s.timers[t].waits[i].phase != Armed)
    && (Current(s, s.timers[t].queue) ==> StoppedBy(s, ByTimer(t, serial)))
  }

  lemma ReturnArms(s: State)
    requires Structure(s) && Enabled(s, Return) && IsRearm(s, Return)
    ensures ArmedOnce(Step(s, Return), s.stack[0].timer, s.serial)
  {
    var t := s.stack[0].timer;
    TimerStep(s, Return, t);
    CancelOk(s.timers[t].waits, s.serial);
    ReturnStops(s);
  }

  lemma ReturnStops(s: State)
    requires Enabled(s, Return) && IsRearm(s, Return)
    ensures var u, t := Step(s, Return), s.stack[0].timer;
            |u.queues| == |s.queues| && (Current(s, s.timers[t].queue) ==> StoppedBy(u, ByTimer(t, s.serial)))
  {
  }

  /** The callback `f` of a periodic timer is running innermost, and may stop its timer. */
  predicate MayStopItself(s: State, f: Frame) {
    s.stack != [] && s.stack[0] == f && f.TimerCallback? && f.periodic && Enabled(s, StopTimer(f.timer))
  }

  /**
   * A periodic callback that stops its own timer, as that of `waitFuture` does when
   * its future is ready, does so in vain: `es` leads to the stop, `more` from there
   * to the return of the callback, which arms the timer and stops the queue again;
   * and without another start the callback can run again.
   */
  lemma OwnStopIsUndone(es: seq<Event>, f: Frame, more: seq<Event>)
    requires Legal(INIT, es) && MayStopItself(Run(INIT, es), f)
    requires var u := Step(Run(INIT, es), StopTimer(f.timer));
             Legal(u, more) && Run(u, more).stack != [] && Run(u, more).stack[0] == f
    ensures var u := Step(Run(INIT, es), StopTimer(f.timer));
            && Enabled(Run(u, more), Return)
            && ArmedOnce(Step(Run(u, more), Return), f.timer, Run(u, more).serial)
            && exists again :: CallsBack(u, f.timer, again)
  {
    StructureRun(INIT, es);
    OwnStopFrom(Run(INIT, es), f, more);
  }

  lemma OwnStopFrom(s: State, f: Frame, more: seq<Event>)
    requires Structure(s) && MayStopItself(s, f)
    requires var u := Step(s, StopTimer(f.timer));
             Legal(u, more) && Run(u, more).stack != [] && Run(u, more).stack[0] == f
    ensures var u := Step(s, StopTimer(f.timer));
            && Enabled(Run(u, more), Return)
            && ArmedOnce(Step(Run(u, more), Return), f.timer, Run(u, more).serial)
            && exists again :: CallsBack(u, f.timer, again)
  {
    var u := Step(s, StopTimer(f.timer));
    StructureStep(s, StopTimer(f.timer));
    StructureRun(u, more);
    var v := Run(u, more);
    assert v.stack[0] in v.stack;
    ReturnArms(v);
    assert f in s.stack && InPeriodicCallback(s, f.timer);
    StopEndsTheTimerExactlyFrom(s, f.timer);
  }
}
