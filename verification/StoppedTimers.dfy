/** When a timer that was stopped still calls back, and how the running handlers come to their ends. */
module StoppedTimers {
  import opened Options
  import opened Timers
  import opened Suspension
  import opened SuspensionInvariant
  import opened TimerRuns

  // ---------------------------------------------------------------------------
  // Letting the running handlers come to their ends
  // ---------------------------------------------------------------------------

  predicate HasExpired(s: State, t: nat) {
    t < |s.timers| && exists i :: 0 <= i < |s.timers[t].waits| && s.timers[t].waits[i].phase == Expired
  }

  predicate InPeriodicCallback(s: State, t: nat) {
    exists f :: f in s.stack && f.TimerCallback? && f.timer == t && f.periodic
  }

  /** Timer `t` is going to call back: a wait has expired, or a running callback will arm a new one. */
  predicate Hot(s: State, t: nat) {
    t < |s.timers| && (HasExpired(s, t) || InPeriodicCallback(s, t))
  }

  /** The events by which the running handlers return, and waits expire. */
  predicate Unwinds(e: Event) {
    e == BeginProcessor || e == EndLaunch || e == Return || e.Elapse?
  }

  /** How many processors the current queue has left. */
  function LeftToRun(s: State): nat {
    if s.queues == [] then 0
    else
      var q := s.queues[|s.queues| - 1];
      if q.next < q.size then q.size - q.next else 0
  }

  function Callers(stack: seq<Frame>): nat {
    if stack == [] then 0 else (if stack[0].Launching? then 0 else 1) + Callers(stack[1..])
  }

  /** The next event on the way out of the running handlers. */
  function NextEvent(s: State): Event
    requires s.stack != []
  {
    if !s.stack[0].Launching? then Return else if Enabled(s, BeginProcessor) then BeginProcessor else EndLaunch
  }

  lemma NextEventEnabled(s: State)
    requires Structure(s) && s.stack != []
    ensures Enabled(s, NextEvent(s))
  {
    assert s.stack[0] in s.stack;
  }

  lemma LaunchShrinks(s: State, queue: Option<nat>, cause: Cause)
    ensures Callers(Launch(s, queue, cause).stack) == Callers(s.stack)
            && LeftToRun(Launch(s, queue, cause)) == LeftToRun(s)
    ensures |Launch(s, queue, cause).queues| == |s.queues|
  {
    if Current(s, queue) {
      assert Launch(s, queue, cause).stack[1..] == s.stack;
    }
  }

  lemma StopShrinks(s: State, queue: Option<nat>, cause: Cause)
    ensures LeftToRun(Stop(s, queue, cause)) == LeftToRun(s) && |Stop(s, queue, cause).queues| == |s.queues|
  {
  }

  lemma TimerReturnShrinks(s: State)
    requires Enabled(s, Return) && s.stack[0].TimerCallback?
    ensures var u := ReturnStep(s);
            |u.queues| == |s.queues| && LeftToRun(u) == LeftToRun(s) && Callers(u.stack) == Callers(s.stack[1..])
  {
    var TimerCallback(t, n, periodic) := s.stack[0];
    var popped := s.(stack := s.stack[1..]);
    var timer := s.timers[t];
    if periodic {
      StopShrinks(popped, timer.queue, ByTimer(t, s.serial));
    } else {
      var stopped := popped.(timers := s.timers[t := timer.(waits := CancelAll(timer.waits))]);
      LaunchShrinks(stopped, timer.queue, ByTimer(t, n));
    }
  }

  lemma ReturnShrinks(s: State)
    requires Enabled(s, Return)
    ensures var u := ReturnStep(s);
            |u.queues| == |s.queues| && LeftToRun(u) == LeftToRun(s) && Callers(u.stack) == Callers(s.stack[1..])
  {
    var popped := s.(stack := s.stack[1..]);
    match s.stack[0] {
      case Launching(_) =>
      case Processor(_, _, _) =>
      case TimerCallback(_, _, _) => TimerReturnShrinks(s);
      case TaskCallback(j) =>
        LaunchShrinks(popped.(tasks := s.tasks[j := s.tasks[j].(phase := Finished)]), s.tasks[j].queue, ByTask(j));
      case ClientCallback(r) =>
        LaunchShrinks(popped.(requests := s.requests[r := s.requests[r].(phase := Done)]), s.clientQueue, ByClient(r));
    }
  }

  /** A queue becomes an earlier one only when a request comes in. */
  lemma QueuesKept(s: State, e: Event)
    requires Enabled(s, e)
    ensures |Step(s, e).queues| == |s.queues| + if e.NewRequest? then 1 else 0
  {
    if e == Return {
      ReturnShrinks(s);
    } else if e.Connected? || e.Respond? {
      ResponseKeepsCount(s, e);
    }
  }

  lemma ResponseKeepsCount(s: State, e: Event)
    requires Enabled(s, e) && (e.Connected? || e.Respond?)
    ensures |Step(s, e).queues| == |s.queues|
  {
  }

  /** State `v` is closer to the end of all handlers than `s`, in the same request. */
  predicate Closer(s: State, v: State) {
    && |v.queues| == |s.queues| && LeftToRun(v) <= LeftToRun(s)
    && (LeftToRun(v) == LeftToRun(s) ==> Callers(v.stack) <= Callers(s.stack))
    && (LeftToRun(v) == LeftToRun(s) && Callers(v.stack) == Callers(s.stack) ==> |v.stack| < |s.stack|)
  }

  /** Every step on the way out either begins a processor, or returns from a call. */
  lemma Shrinks(s: State)
    requires Structure(s) && s.stack != [] && Enabled(s, NextEvent(s))
    ensures Closer(s, Step(s, NextEvent(s)))
  {
    assert s.stack[0] in s.stack;
    if NextEvent(s) == Return {
      ReturnShrinks(s);
    }
  }

  lemma CancelKeepsExpired(waits: seq<Wait>, i: nat)
    requires i < |waits| && waits[i].phase == Expired
    ensures CancelAll(waits)[i] == waits[i]
    ensures forall periodic, n :: Arm(waits, periodic, n)[i] == waits[i]
  {
  }

  lemma NextKeepsExpired(s: State, e: Event, t: nat, i: nat)
    requires Enabled(s, e) && !e.Dispatch? && t < |s.timers| && i < |s.timers[t].waits|
    requires s.timers[t].waits[i].phase == Expired
    ensures i < |NextWaits(s, e, t)| && NextWaits(s, e, t)[i].phase == Expired
  {
    CancelKeepsExpired(s.timers[t].waits, i);
  }

  lemma ExpiredKept(s: State, e: Event, t: nat)
    requires HasExpired(s, t) && Enabled(s, e) && !e.Dispatch?
    ensures HasExpired(Step(s, e), t)
  {
    var i :| 0 <= i < |s.timers[t].waits| && s.timers[t].waits[i].phase == Expired;
    TimerStep(s, e, t);
    NextKeepsExpired(s, e, t, i);
    assert Step(s, e).timers[t].waits[i].phase == Expired;
  }

  /** The step returns from a periodic callback of timer `t`. */
  predicate Rearms(s: State, e: Event, t: nat) {
    e == Return && s.stack != [] && s.stack[0].TimerCallback? && s.stack[0].timer == t && s.stack[0].periodic
  }

  lemma FrameKept(s: State, e: Event, f: Frame)
    requires Enabled(s, e) && Unwinds(e) && f in s.stack && f.TimerCallback? && (e == Return ==> f != s.stack[0])
    ensures f in Step(s, e).stack
  {
    if e == EndLaunch || e == Return {
      assert f in s.stack[1..];
    }
    if e == Return {
      ReturnKeepsFrame(s, f);
    } else if e == BeginProcessor {
      assert Step(s, e).stack[1..] == s.stack;
    }
  }

  lemma ReturnKeepsFrame(s: State, f: Frame)
    requires Enabled(s, Return) && f in s.stack[1..]
    ensures f in Step(s, Return).stack
  {
    var k :| 0 <= k < |s.stack[1..]| && s.stack[1..][k] == f;
    var u := Step(s, Return);
    assert u.stack == s.stack[1..] || u.stack[1..] == s.stack[1..];
  }

  lemma HotStep(s: State, e: Event, t: nat)
    requires Structure(s) && Hot(s, t) && Enabled(s, e) && Unwinds(e) && !Rearms(s, e, t)
    ensures Hot(Step(s, e), t)
  {
    TimerStep(s, e, t);
    if HasExpired(s, t) {
      ExpiredKept(s, e, t);
    } else {
      var f :| f in s.stack && f.TimerCallback? && f.timer == t && f.periodic;
      FrameKept(s, e, f);
    }
  }

  /** The return of a periodic callback arms a wait; here that one expires next. */
  lemma RearmStep(s: State, t: nat) returns (i: nat)
    requires Structure(s) && Enabled(s, Return) && Rearms(s, Return, t) && t < |s.timers|
    ensures var u := Step(s, Return);
            Enabled(u, Elapse(t, i)) && Hot(Step(u, Elapse(t, i)), t)
                && u.timers[t].waits[i] == Wait(Armed, true, s.serial)
  {
    TimerStep(s, Return, t);
    i := |s.timers[t].waits|;
    var v := Step(Step(s, Return), Elapse(t, i));
    assert v.timers[t].waits[i].phase == Expired;
  }

  predicate OnlyUnwinds(es: seq<Event>) {
    forall e :: e in es ==> Unwinds(e)
  }

  /** All handlers have returned, in the same request, and a wait of timer `t` has expired. */
  predicate Unwound(s: State, u: State, t: nat) {
    && Structure(u) && u.stack == [] && HasExpired(u, t)
    && |u.queues| == |s.queues| && t < |s.timers| && u.timers[t].queue == s.timers[t].queue
  }

  lemma UnwoundFrom(s: State, e: Event, u: State, t: nat)
    requires Enabled(s, e) && t < |s.timers| && Unwound(Step(s, e), u, t) && |Step(s, e).queues| == |s.queues|
    ensures Unwound(s, u, t)
  {
    TimerStep(s, e, t);
  }

  lemma UnwindPrepend(s: State, e: Event, rest: seq<Event>, t: nat) returns (es: seq<Event>)
    requires Enabled(s, e) && Unwinds(e) && t < |s.timers| && |Step(s, e).queues| == |s.queues|
    requires Legal(Step(s, e), rest) && OnlyUnwinds(rest) && Unwound(Step(s, e), Run(Step(s, e), rest), t)
    ensures Legal(s, es) && OnlyUnwinds(es) && Unwound(s, Run(s, es), t)
  {
    PrependOne(s, e, rest);
    UnwoundFrom(s, e, Run(Step(s, e), rest), t);
    es := [e] + rest;
  }

  lemma UnwindOne(s: State, t: nat) returns (e: Event)
    requires Structure(s) && Hot(s, t) && s.stack != [] && !Rearms(s, NextEvent(s), t)
    ensures Enabled(s, e) && Unwinds(e) && Structure(Step(s, e)) && Hot(Step(s, e), t) && Closer(s, Step(s, e))
  {
    e := NextEvent(s);
    NextEventEnabled(s);
    StructureStep(s, e);
    Shrinks(s);
    HotStep(s, e, t);
  }

  lemma RearmCloser(s: State, t: nat, i: nat)
    requires Enabled(s, Return) && Rearms(s, Return, t) && Enabled(Step(s, Return), Elapse(t, i))
    ensures var v := Step(Step(s, Return), Elapse(t, i));
            Closer(s, v) && |Step(s, Return).queues| == |v.queues| == |s.queues|
  {
    ReturnShrinks(s);
    ElapseShrinks(Step(s, Return), t, i);
  }

  lemma UnwindRearm(s: State, t: nat) returns (i: nat)
    requires Structure(s) && Hot(s, t) && s.stack != [] && Rearms(s, Return, t)
    ensures Enabled(s, Return) && Enabled(Step(s, Return), Elapse(t, i)) && |Step(s, Return).queues| == |s.queues|
    ensures var v := Step(Step(s, Return), Elapse(t, i));
            Structure(v) && Hot(v, t) && Closer(s, v) && |v.queues| == |s.queues|
  {
    NextEventEnabled(s);
    i := RearmStep(s, t);
    RearmCloser(s, t, i);
    StructureStep(s, Return);
    StructureStep(Step(s, Return), Elapse(t, i));
  }

  /**
   * From every state the running handlers can return, and a timer that is going to call back
   * then has an expired wait.
   */
  lemma Unwind(s: State, t: nat) returns (es: seq<Event>)
    requires Structure(s) && Hot(s, t)
    ensures Legal(s, es) && OnlyUnwinds(es) && Unwound(s, Run(s, es), t)
    decreases LeftToRun(s), Callers(s.stack), |s.stack|
  {
    if s.stack == [] {
      es := [];
    } else if Rearms(s, NextEvent(s), t) {
      var i := UnwindRearm(s, t);
      var u := Step(s, Return);
      es := Unwind(Step(u, Elapse(t, i)), t);
      StillThere(s, Return, t);
      es := UnwindPrepend(u, Elapse(t, i), es, t);
      es := UnwindPrepend(s, Return, es, t);
    } else {
      var e := UnwindOne(s, t);
      es := Unwind(Step(s, e), t);
      es := UnwindPrepend(s, e, es, t);
    }
  }

  lemma StillThere(s: State, e: Event, t: nat)
    requires Enabled(s, e) && t < |s.timers|
    ensures t < |Step(s, e).timers|
  {
    TimerStep(s, e, t);
  }

  lemma ElapseShrinks(s: State, t: nat, i: nat)
    requires Enabled(s, Elapse(t, i))
    ensures Step(s, Elapse(t, i)).queues == s.queues && Step(s, Elapse(t, i)).stack == s.stack
  {
  }

  // ---------------------------------------------------------------------------
  // Stopped timers
  // ---------------------------------------------------------------------------

  /** In the run `es`, which does not start timer `t`, the timer calls back. */
  predicate CallsBack(s: State, t: nat, es: seq<Event>) {
    Legal(s, es) && NotStarted(es, t) && Callbacks(s, es, t) > 0
  }

  lemma {:induction false} UnwindingStartsNothing(es: seq<Event>, e: Event, t: nat)
    requires OnlyUnwinds(es) && !e.StartTimer?
    ensures NotStarted(es + [e], t)
  {
    if es == [] {
      assert [] + [e] == [e];
    } else {
      assert es[0] in es && forall f :: f in es[1..] ==> f in es;
      UnwindingStartsNothing(es[1..], e, t);
      assert (es + [e])[1..] == es[1..] + [e];
    }
  }

  lemma {:induction false} CallbacksOfAppend(s: State, es: seq<Event>, e: Event, t: nat)
    requires Legal(s, es) && Enabled(Run(s, es), e) && FiresTimer(Run(s, es), e, t)
    ensures Legal(s, es + [e]) && Callbacks(s, es + [e], t) > 0
    decreases |es|
  {
    AppendOne(s, es, e);
    if es == [] {
      assert es + [e] == [e];
    } else {
      assert (es + [e])[1..] == es[1..] + [e] && (es + [e])[0] == es[0];
      CallbacksOfAppend(Step(s, es[0]), es[1..], e, t);
    }
  }

  lemma HotCallsBack(s: State, t: nat) returns (es: seq<Event>)
    requires Structure(s) && Hot(s, t)
    ensures CallsBack(s, t, es)
  {
    es := Unwind(s, t);
    var u := Run(s, es);
    var i :| 0 <= i < |u.timers[t].waits| && u.timers[t].waits[i].phase == Expired;
    CallbacksOfAppend(s, es, Dispatch(t, i), t);
    UnwindingStartsNothing(es, Dispatch(t, i), t);
    es := es + [Dispatch(t, i)];
  }

  lemma HotAfterStop(s: State, t: nat)
    requires Structure(s) && Enabled(s, StopTimer(t)) && Hot(s, t)
    ensures Hot(Step(s, StopTimer(t)), t)
  {
    TimerStep(s, StopTimer(t), t);
    if HasExpired(s, t) {
      ExpiredKept(s, StopTimer(t), t);
    } else {
      var f :| f in s.stack && f.TimerCallback? && f.timer == t && f.periodic;
      StopKeepsFrame(s, t, f);
    }
  }

  lemma StopKeepsFrame(s: State, t: nat, f: Frame)
    requires Enabled(s, StopTimer(t)) && f in s.stack
    ensures f in Step(s, StopTimer(t)).stack
  {
    var u := Step(s, StopTimer(t));
    assert u.stack == s.stack || u.stack[1..] == s.stack;
  }

  lemma StopEndsTheTimerExactlyFrom(s: State, t: nat)
    requires Structure(s) && Enabled(s, StopTimer(t))
    ensures (exists es :: CallsBack(Step(s, StopTimer(t)), t, es)) <==> Hot(s, t)
  {
    var u := Step(s, StopTimer(t));
    if Hot(s, t) {
      StructureStep(s, StopTimer(t));
      HotAfterStop(s, t);
      var es := HotCallsBack(u, t);
    } else {
      forall es | Legal(u, es) && NotStarted(es, t)
        ensures Callbacks(u, es, t) == 0
      {
        StopEndsTheTimer(s, t, es);
      }
    }
  }

  /**
   * After a `stop` the timer can call back without being started again, exactly
   * if at that moment one of its waits has expired undispatched or a periodic
   * callback of it is running.
   */
  lemma StopEndsTheTimerExactly(es: seq<Event>, t: nat)
    requires Legal(INIT, es) && Enabled(Run(INIT, es), StopTimer(t))
    ensures var s := Run(INIT, es);
            (exists more :: CallsBack(Step(s, StopTimer(t)), t, more)) <==> HasExpired(s, t) || InPeriodicCallback(s, t)
  {
    StructureRun(INIT, es);
    StopEndsTheTimerExactlyFrom(Run(INIT, es), t);
  }

  /** A processor has started a timer. */
  lemma TimerStarted(periodic: bool) returns (es: seq<Event>)
    ensures Legal(INIT, es) && es == [NewRequest(1), BeginProcessor, NewTimer, StartTimer(0, periodic)]
    ensures var s := Run(INIT, es);
            && s.stack == [Processor(0, 0, 1), Launching(0)] && s.queues == [Queue(true, ByTimer(0, 0), 1, 1, false)]
            && s.timers == [Timer(Some(0), Application, [Wait(Armed, periodic, 0)])]
            && s.tasks == [] && s.requests == []
  {
    AppendOne(INIT, [], NewRequest(1));
    es := [] + [NewRequest(1)];
    assert Run(INIT, es).queues == [Queue(false, ByRouter, 0, 1, false)];
    AppendOne(INIT, es, BeginProcessor);
    es := es + [BeginProcessor];
    AppendOne(INIT, es, NewTimer);
    es := es + [NewTimer];
    assert Run(INIT, es).timers == [Timer(Some(0), Application, [])];
    AppendOne(INIT, es, StartTimer(0, periodic));
    es := es + [StartTimer(0, periodic)];
    assert Arm([], periodic, 0) == [Wait(Armed, periodic, 0)];
  }

  /** A timer can be stopped while one of its waits has expired undispatched. */
  lemma StopAfterExpiry() returns (es: seq<Event>)
    ensures Legal(INIT, es) && Enabled(Run(INIT, es), StopTimer(0)) && HasExpired(Run(INIT, es), 0)
  {
    es := TimerStarted(false);
    AppendOne(INIT, es, Elapse(0, 0));
    es := es + [Elapse(0, 0)];
    assert Run(INIT, es).timers[0].waits[0].phase == Expired;
  }

  /** A timer can be stopped by its own periodic callback. */
  lemma StopInPeriodicCallback() returns (es: seq<Event>)
    ensures Legal(INIT, es) && Enabled(Run(INIT, es), StopTimer(0)) && InPeriodicCallback(Run(INIT, es), 0)
  {
    es := TimerStarted(true);
    AppendOne(INIT, es, Return);
    es := es + [Return];
    AppendOne(INIT, es, EndLaunch);
    es := es + [EndLaunch];
    AppendOne(INIT, es, Elapse(0, 0));
    es := es + [Elapse(0, 0)];
    assert Run(INIT, es).timers[0].waits[0] == Wait(Expired, true, 0);
    AppendOne(INIT, es, Dispatch(0, 0));
    es := es + [Dispatch(0, 0)];
    assert Run(INIT, es).stack[0] == TimerCallback(0, 0, true);
  }
}
