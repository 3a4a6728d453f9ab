/** What holds of every timer over a whole run. */
module TimerRuns {
  import opened Options
  import opened Timers
  import opened Suspension
  import opened SuspensionInvariant
  import opened Stories

  /** The step calls `onResponseReceived` of the request that timer `t` guards. */
  predicate StopsTimeout(s: State, e: Event, t: nat)
    requires Enabled(s, e)
  {
    (e.Respond? || (e.Connected? && (e.error || !e.accepted))) && s.requests[e.r].timer == t
  }

  /** The waits of timer `t` after the step. */
  function NextWaits(s: State, e: Event, t: nat): seq<Wait>
    requires Enabled(s, e) && t < |s.timers|
  {
    var waits := s.timers[t].waits;
    if e == Return && s.stack[0].TimerCallback? && s.stack[0].timer == t then
      if s.stack[0].periodic then Arm(waits, true, s.serial) else CancelAll(waits)
    else if e.StartTimer? && e.t == t then Arm(waits, e.periodic, s.serial)
    else if e == StopTimer(t) || StopsTimeout(s, e, t) then CancelAll(waits)
    else if e.Elapse? && e.t == t then Expire(waits, e.i)
    else if e.Dispatch? && e.t == t then Take(waits, e.i)
    else waits
  }

  predicate UsesTimers(e: Event) {
    e == Return || e.StartTimer? || e.StopTimer? || e.Elapse? || e.Dispatch? || e.Connected? || e.Respond?
        || e == Request
  }

  lemma TimersKept(s: State, e: Event)
    requires Enabled(s, e) && !UsesTimers(e)
    ensures Step(s, e).serial == s.serial
    ensures Step(s, e).timers == s.timers + if e == NewTimer then [Timer(s.providerQueue, Application, [])] else []
  {
  }

  /** Timer `t` goes on as `NextWaits` says. */
  predicate TimerGoesOn(s: State, e: Event, t: nat)
    requires Enabled(s, e) && t < |s.timers|
  {
    && t < |Step(s, e).timers| && Step(s, e).serial >= s.serial
    && Step(s, e).timers[t] == s.timers[t].(waits := NextWaits(s, e, t))
  }

  lemma ReturnGoesOn(s: State, t: nat)
    requires Enabled(s, Return) && t < |s.timers|
    ensures TimerGoesOn(s, Return, t)
  {
  }

  lemma ResponseGoesOn(s: State, e: Event, t: nat)
    requires Enabled(s, e) && t < |s.timers| && (e.Connected? || e.Respond?)
    ensures TimerGoesOn(s, e, t)
  {
  }

  lemma StartGoesOn(s: State, e: Event, t: nat)
    requires Enabled(s, e) && t < |s.timers| && e.StartTimer?
    ensures TimerGoesOn(s, e, t)
  {
  }

  lemma StopGoesOn(s: State, e: Event, t: nat)
    requires Enabled(s, e) && t < |s.timers| && e.StopTimer?
    ensures TimerGoesOn(s, e, t)
  {
  }

  lemma RequestGoesOn(s: State, t: nat)
    requires Enabled(s, Request) && t < |s.timers|
    ensures TimerGoesOn(s, Request, t)
  {
    assert Step(s, Request).timers[..|s.timers|] == s.timers;
  }

  lemma TimerStep(s: State, e: Event, t: nat)
    requires Enabled(s, e) && t < |s.timers|
    ensures TimerGoesOn(s, e, t)
  {
    if !UsesTimers(e) {
      TimersKept(s, e);
    } else if e == Return {
      ReturnGoesOn(s, t);
    } else if e.Connected? || e.Respond? {
      ResponseGoesOn(s, e, t);
    } else if e.StartTimer? {
      StartGoesOn(s, e, t);
    } else if e.StopTimer? {
      StopGoesOn(s, e, t);
    } else if e == Request {
      RequestGoesOn(s, t);
    }
  }

  lemma ReturnAddsNoTimer(s: State)
    requires Enabled(s, Return)
    ensures |Step(s, Return).timers| == |s.timers|
  {
  }

  lemma ResponseAddsNoTimer(s: State, e: Event)
    requires Enabled(s, e) && (e.Connected? || e.Respond?)
    ensures |Step(s, e).timers| == |s.timers|
  {
  }

  lemma RequestAddsTimer(s: State)
    requires Enabled(s, Request)
    ensures Step(s, Request).timers == s.timers
            + [Timer(s.privateQueue, Timeout(|s.requests|), Arm([], false, s.serial))]
  {
  }

  lemma OthersAddNoTimer(s: State, e: Event)
    requires Enabled(s, e) && (e.StartTimer? || e.StopTimer? || e.Elapse? || e.Dispatch?)
    ensures |Step(s, e).timers| == |s.timers|
  {
  }

  /** The timers that a step makes. */
  lemma TimersGrow(s: State, e: Event)
    requires Enabled(s, e)
    ensures var u := Step(s, e);
            if e == NewTimer then u.timers == s.timers + [Timer(s.providerQueue, Application, [])]
            else if e == Request then
              && |u.timers| == |s.timers| + 1
              && u.timers[|s.timers|] == Timer(s.privateQueue, Timeout(|s.requests|), [Wait(Armed, false, s.serial)])
            else |u.timers| == |s.timers|
  {
    if !UsesTimers(e) {
      TimersKept(s, e);
    } else if e == Return {
      ReturnAddsNoTimer(s);
    } else if e == Request {
      RequestAddsTimer(s);
      assert Arm([], false, s.serial) == [Wait(Armed, false, s.serial)];
    } else if e.Connected? || e.Respond? {
      ResponseAddsNoTimer(s, e);
    } else {
      OthersAddNoTimer(s, e);
    }
  }

  // ---------------------------------------------------------------------------
  // A wait calls back once at most
  // ---------------------------------------------------------------------------

  predicate Gone(waits: seq<Wait>, n: nat) {
    forall i :: 0 <= i < |waits| ==> waits[i].serial != n
  }

  /** The callback of wait `n` of timer `t` has run once at most, and only if the wait is gone. */
  predicate WaitStory(s: State, t: nat, n: nat) {
    var story := Story(s.log, OfWait(t, n));
    |story| <= 1 && (story != [] ==> n < s.serial && t < |s.timers| && Gone(s.timers[t].waits, n))
  }

  /** The step runs the callback of wait `n` of timer `t`. */
  predicate Fires(s: State, e: Event, t: nat, n: nat)
    requires Enabled(s, e)
  {
    e.Dispatch? && e.t == t && s.timers[t].waits[e.i].phase == Expired && s.timers[t].waits[e.i].serial == n
  }

  lemma AddedAboutWait(s: State, e: Event, t: nat, n: nat)
    requires Enabled(s, e)
    ensures Story(Added(s, e), OfWait(t, n)) == if Fires(s, e, t, n) then [CallbackRun(t, n)] else []
  {
    if e.Connected? || e.Respond? {
      StoryPair(TimeoutStopped(e.r), HandlerRun(e.r), OfWait(t, n));
    } else if e == Return {
      ReturnAdds(s, OfWait(t, n));
    }
  }

  lemma GoneTake(waits: seq<Wait>, i: nat, n: nat, bound: nat)
    requires WaitsOk(waits, bound) && i < |waits| && (Gone(waits, n) || waits[i].serial == n)
    ensures Gone(Take(waits, i), n)
  {
    TakeOk(waits, i, bound);
    assert forall k :: 0 <= k < |Take(waits, i)| ==> Take(waits, i)[k] in waits;
  }

  lemma GoneKept(waits: seq<Wait>, n: nat)
    requires Gone(waits, n)
    ensures Gone(CancelAll(waits), n)
    ensures forall periodic: bool, serial: nat :: serial != n ==> Gone(Arm(waits, periodic, serial), n)
    ensures forall i: nat :: i < |waits| ==> Gone(Expire(waits, i), n)
  {
  }

  lemma GoneNext(s: State, e: Event, t: nat, n: nat)
    requires Structure(s) && Enabled(s, e) && t < |s.timers|
    requires n < s.serial && (Gone(s.timers[t].waits, n) || Fires(s, e, t, n))
    ensures Gone(NextWaits(s, e, t), n)
  {
    assert TimerOk(s.timers[t], s.serial, |s.queues|);
    if e.Dispatch? && e.t == t {
      GoneTake(s.timers[t].waits, e.i, n, s.serial);
    } else {
      GoneKept(s.timers[t].waits, n);
    }
  }

  lemma WaitStoryStep(s: State, e: Event, t: nat, n: nat)
    requires Structure(s) && Enabled(s, e) && WaitStory(s, t, n)
    ensures WaitStory(Step(s, e), t, n)
  {
    LogStep(s, e);
    StoryConcat(s.log, Added(s, e), OfWait(t, n));
    AddedAboutWait(s, e, t, n);
    if t < |s.timers| {
      assert TimerOk(s.timers[t], s.serial, |s.queues|);
      TimerStep(s, e, t);
      if n < s.serial && (Gone(s.timers[t].waits, n) || Fires(s, e, t, n)) {
        GoneNext(s, e, t, n);
      }
    }
  }

  lemma {:induction false} WaitStoryRun(s: State, es: seq<Event>, t: nat, n: nat)
    requires Structure(s) && Legal(s, es) && WaitStory(s, t, n)
    ensures WaitStory(Run(s, es), t, n)
    decreases |es|
  {
    if es != [] {
      StructureStep(s, es[0]);
      WaitStoryStep(s, es[0], t, n);
      WaitStoryRun(Step(s, es[0]), es[1..], t, n);
    }
  }

  /** At most one wait of a timer is armed, and each wait runs its callback once at most. */
  lemma TimersInEveryRun(es: seq<Event>, t: nat, n: nat)
    requires Legal(INIT, es)
    ensures var s := Run(INIT, es);
            && |Story(s.log, OfWait(t, n))| <= 1
            && (t < |s.timers| ==> forall i, j :: 0 <= i < j < |s.timers[t].waits| ==>
                  s.timers[t].waits[i].phase != Armed || s.timers[t].waits[j].phase != Armed)
  {
    StructureRun(INIT, es);
    WaitStoryRun(INIT, es, t, n);
    if t < |Run(INIT, es).timers| {
      assert TimerOk(Run(INIT, es).timers[t], Run(INIT, es).serial, |Run(INIT, es).queues|);
    }
  }

  // ---------------------------------------------------------------------------
  // Timeout timers
  // ---------------------------------------------------------------------------

  /** A timer without a queue has launched none. */
  predicate LaunchesNothing(s: State, t: nat) {
    t >= |s.timers| || s.timers[t].queue == None ==> Story(s.log, OfTimer(t)) == []
  }

  lemma AddedAboutTimer(s: State, e: Event, t: nat)
    requires Enabled(s, e) && (t >= |s.timers| || s.timers[t].queue == None)
    ensures Story(Added(s, e), OfTimer(t)) == []
  {
    if e.Connected? || e.Respond? {
      StoryPair(TimeoutStopped(e.r), HandlerRun(e.r), OfTimer(t));
    } else if e == Return {
      ReturnAdds(s, OfTimer(t));
    }
  }

  lemma LaunchesNothingStep(s: State, e: Event, t: nat)
    requires Structure(s) && Enabled(s, e) && LaunchesNothing(s, t)
    ensures LaunchesNothing(Step(s, e), t)
  {
    LogStep(s, e);
    StoryConcat(s.log, Added(s, e), OfTimer(t));
    if t < |s.timers| {
      TimerStep(s, e, t);
    }
    if t >= |s.timers| || s.timers[t].queue == None {
      AddedAboutTimer(s, e, t);
    }
  }

  lemma {:induction false} LaunchesNothingRun(s: State, es: seq<Event>, t: nat)
    requires Structure(s) && Legal(s, es) && LaunchesNothing(s, t)
    ensures LaunchesNothing(Run(s, es), t)
    decreases |es|
  {
    if es != [] {
      StructureStep(s, es[0]);
      LaunchesNothingStep(s, es[0], t);
      LaunchesNothingRun(Step(s, es[0]), es[1..], t);
    }
  }

  /** The timeout timer of a client request never launches a queue, although stopping any timer would. */
  lemma TimeoutNeverLaunches(es: seq<Event>, r: nat)
    requires Legal(INIT, es) && r < |Run(INIT, es).requests|
    ensures Story(Run(INIT, es).log, OfTimer(Run(INIT, es).requests[r].timer)) == []
  {
    var s := Run(INIT, es);
    StructureRun(INIT, es);
    LaunchesNothingRun(INIT, es, s.requests[r].timer);
    assert TimerOk(s.timers[s.requests[r].timer], s.serial, |s.queues|);
  }

  // ---------------------------------------------------------------------------
  // Stopped timers
  // ---------------------------------------------------------------------------

  /** No wait of timer `t` is due, and no periodic callback of it is running that would re-arm it. */
  ghost predicate Quiet(s: State, t: nat) {
    && t < |s.timers|
    && (forall i :: 0 <= i < |s.timers[t].waits| ==> s.timers[t].waits[i].phase == Cancelled)
    && (forall n: nat :: TimerCallback(t, n, true) !in s.stack)
  }

  /** The step runs some callback of timer `t`. */
  predicate FiresTimer(s: State, e: Event, t: nat)
    requires Enabled(s, e)
  {
    e.Dispatch? && e.t == t && s.timers[t].waits[e.i].phase == Expired
  }

  lemma FramesOfStarts(s: State, e: Event, f: Frame)
    requires Enabled(s, e) && f.TimerCallback? && (e.StartTimer? || e == Request)
    ensures f in Step(s, e).stack ==> f in s.stack
  {
  }

  lemma FramesOfCalls(s: State, e: Event, f: Frame)
    requires Enabled(s, e) && f.TimerCallback? && UsesTimers(e) && !e.Dispatch? && e != Return
    ensures f in Step(s, e).stack ==> f in s.stack
  {
    if e.StartTimer? || e == Request {
      FramesOfStarts(s, e, f);
    }
  }

  /** A callback of a timer appears on the stack only when it is dispatched. */
  lemma FramesNext(s: State, e: Event, f: Frame)
    requires Enabled(s, e) && f.TimerCallback?
    ensures f in Step(s, e).stack ==> f in s.stack || Fires(s, e, f.timer, f.serial)
  {
    if UsesTimers(e) && !e.Dispatch? && e != Return {
      FramesOfCalls(s, e, f);
    }
  }

  /** The wait whose callback is running is not outstanding any more. */
  predicate RunningGone(s: State) {
    forall f :: f in s.stack ==> f.TimerCallback? ==>
      f.timer < |s.timers| && f.serial < s.serial && Gone(s.timers[f.timer].waits, f.serial)
  }

  lemma RunningGoneStep(s: State, e: Event)
    requires Structure(s) && Enabled(s, e) && RunningGone(s)
    ensures RunningGone(Step(s, e))
  {
    var u := Step(s, e);
    forall f | f in u.stack && f.TimerCallback?
      ensures f.timer < |u.timers| && f.serial < u.serial && Gone(u.timers[f.timer].waits, f.serial)
    {
      FramesNext(s, e, f);
      if Fires(s, e, f.timer, f.serial) {
        assert TimerOk(s.timers[f.timer], s.serial, |s.queues|);
      } else {
        assert f in s.stack;
      }
      TimerStep(s, e, f.timer);
      GoneNext(s, e, f.timer, f.serial);
    }
  }

  lemma QuietStep(s: State, e: Event, t: nat)
    requires Enabled(s, e) && Quiet(s, t) && (e.StartTimer? ==> e.t != t)
    ensures Quiet(Step(s, e), t) && !FiresTimer(s, e, t)
  {
    TimerStep(s, e, t);
    forall n: nat
      ensures TimerCallback(t, n, true) !in Step(s, e).stack
    {
      FramesNext(s, e, TimerCallback(t, n, true));
    }
  }

  /** The callbacks of timer `t` that a run starts. */
  function Callbacks(s: State, es: seq<Event>, t: nat): nat
    requires Legal(s, es)
    decreases |es|
  {
    if es == [] then 0 else (if FiresTimer(s, es[0], t) then 1 else 0) + Callbacks(Step(s, es[0]), es[1..], t)
  }

  predicate NotStarted(es: seq<Event>, t: nat) {
    es == [] || ((es[0].StartTimer? ==> es[0].t != t) && NotStarted(es[1..], t))
  }

  lemma {:induction false} QuietRun(s: State, es: seq<Event>, t: nat)
    requires Legal(s, es) && Quiet(s, t) && NotStarted(es, t)
    ensures Callbacks(s, es, t) == 0
    decreases |es|
  {
    if es != [] {
      QuietStep(s, es[0], t);
      QuietRun(Step(s, es[0]), es[1..], t);
    }
  }

  /**
   * `stop` ends a timer until the next start, if no wait has expired undispatched
   * and it is not called during a periodic callback of the timer.
   */
  lemma StopEndsTheTimer(s: State, t: nat, es: seq<Event>)
    requires Enabled(s, StopTimer(t)) && Legal(Step(s, StopTimer(t)), es) && NotStarted(es, t)
    requires forall i :: 0 <= i < |s.timers[t].waits| ==> s.timers[t].waits[i].phase != Expired
    requires forall n: nat :: TimerCallback(t, n, true) !in s.stack
    ensures Callbacks(Step(s, StopTimer(t)), es, t) == 0
  {
    var u := Step(s, StopTimer(t));
    TimerStep(s, StopTimer(t), t);
    forall n: nat
      ensures TimerCallback(t, n, true) !in u.stack
    {
      FramesNext(s, StopTimer(t), TimerCallback(t, n, true));
    }
    assert Quiet(u, t);
    QuietRun(u, es, t);
  }
}
