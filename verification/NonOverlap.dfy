/**
 * Processors that each start at most one operation run one after the other: the
 * next one begins only when the callback of that operation has returned.
 */
module NonOverlap {
  import opened Options
  import opened Timers
  import opened Suspension
  import opened SuspensionInvariant
  import opened Resumption
  import opened TimerRuns

  /** A processor is running and has not started any operation. */
  predicate MayStart(s: State) {
    s.stack != [] && s.stack[0].Processor? && s.stack[0].operations == 0
  }

  predicate StoppedBy(s: State, c: Cause) {
    s.queues != [] && s.queues[|s.queues| - 1].stopped && s.queues[|s.queues| - 1].stopper == c
  }

  /** Stopping or starting timer `t` cancels the wait that is operation `c`. */
  predicate CancelsOperation(s: State, t: nat, c: Cause) {
    && c.ByTimer? && c.timer == t && t < |s.timers|
    && exists i :: 0 <= i < |s.timers[t].waits| && s.timers[t].waits[i].serial == c.serial
         && s.timers[t].waits[i].phase == Armed
  }

  /** The queue is stopped by a wait of timer `t` that is still armed. */
  predicate CancelsStopper(s: State, t: nat) {
    && s.queues != [] && s.queues[|s.queues| - 1].stopped
    && CancelsOperation(s, t, s.queues[|s.queues| - 1].stopper)
  }

  /**
   * Operations are started by processors only, one each: a timer of the request,
   * a posted task or a client request. A timer for which the queue waits may be
   * started again, and be stopped, though not by a processor, as long as its wait
   * has not expired. Client requests do not outlive the request.
   */
  predicate Disciplined(s: State, e: Event) {
    match e
    case StartTimer(t, _) =>
      t < |s.timers| && Current(s, s.timers[t].queue) && (MayStart(s) || CancelsStopper(s, t))
    case StopTimer(t) =>
      && t < |s.timers| && Current(s, s.timers[t].queue) && CancelsStopper(s, t)
      && !(s.stack != [] && s.stack[0].Processor?)
    case Post => MayStart(s)
    case Request => MayStart(s)
    case NewRequest(_) => forall r :: 0 <= r < |s.requests| ==> s.requests[r].phase == Done
    case _ => true
  }

  predicate DisciplinedRun(s: State, es: seq<Event>)
    requires Legal(s, es)
    decreases |es|
  {
    es == [] || (Disciplined(s, es[0]) && DisciplinedRun(Step(s, es[0]), es[1..]))
  }

  // ---------------------------------------------------------------------------
  // Invariant
  // ---------------------------------------------------------------------------

  /** Whatever is outstanding is the one operation that stopped the queue. */
  ghost predicate OneOwed(s: State) {
    forall c :: Owed(s, c) ==> StoppedBy(s, c)
  }

  /** The callback of a timer is called by a handler, and by nothing else. */
  predicate HandlersAtBottom(s: State) {
    forall k :: 0 <= k < |s.stack| - 1 ==> !s.stack[k].TimerCallback?
  }

  /** Operation `c` of the current request is outstanding, and its callback has not begun. */
  predicate Pending(s: State, c: Cause) {
    match c
    case ByTimer(t, n) => t < |s.timers| && Current(s, s.timers[t].queue) && Due(s.timers[t].waits, n)
    case ByTask(j) => j < |s.tasks| && Current(s, s.tasks[j].queue) && s.tasks[j].phase == Posted
    case ByClient(r) => r < |s.requests| && (s.requests[r].phase == Connecting || s.requests[r].phase == Accepted)
    case _ => false
  }

  /**
   * Only the innermost frame is a processor; it runs unstopped until it starts its
   * operation, which is then pending.
   */
  predicate ProcessorOnTop(s: State) {
    && (forall k :: 1 <= k < |s.stack| ==> !s.stack[k].Processor?)
    && (s.stack != [] && s.stack[0].Processor? && s.queues != [] ==>
          var queue := s.queues[|s.queues| - 1];
          if s.stack[0].operations == 0 then !queue.stopped else queue.stopped && Pending(s, queue.stopper))
  }

  ghost predicate Orderly(s: State) {
    Structure(s) && RunningGone(s) && OneOwed(s) && HandlersAtBottom(s) && ProcessorOnTop(s)
  }

  // ---------------------------------------------------------------------------
  // Steps
  // ---------------------------------------------------------------------------

  /** The operation that a step starts, if any. */
  predicate Starts(s: State, e: Event, c: Cause) {
    || (e.StartTimer? && c == ByTimer(e.t, s.serial))
    || (e == Post && c == ByTask(|s.tasks|))
    || (e == Request && c == ByClient(|s.requests|))
  }

  lemma StartOrderly(s: State, e: Event)
    requires Orderly(s) && Enabled(s, e) && Disciplined(s, e)
    requires e.StartTimer? || e == Post || e == Request
    ensures OneOwed(Step(s, e)) && ProcessorOnTop(Step(s, e))
  {
    var u := Step(s, e);
    forall c | Owed(u, c)
      ensures StoppedBy(u, c)
    {
      if Starts(s, e, c) {
        StartStops(s, e, c);
      } else {
        match e {
          case StartTimer(_, _) => OwedBeforeStart(s, e, c);
          case Post => OwedBeforePost(s, c);
          case Request => OwedBeforeRequest(s, c);
        }
      }
    }
    StartKeepsTop(s, e);
  }

  lemma OwedBeforeStart(s: State, e: Event, c: Cause)
    requires Orderly(s) && Enabled(s, e) && e.StartTimer? && Disciplined(s, e)
    requires Owed(Step(s, e), c) && !Starts(s, e, c)
    ensures MayStart(s) && Owed(s, c)
  {
    KeptByStart(s, e, c);
    if CancelsStopper(s, e.t) {
      assert StoppedBy(s, c);
      CancelledByStart(s, e, c);
    }
  }

  lemma KeptByStart(s: State, e: Event, c: Cause)
    requires Structure(s) && Enabled(s, e) && e.StartTimer?
    requires Owed(Step(s, e), c) && !Starts(s, e, c)
    ensures Owed(s, c)
  {
    ArmOk(s.timers[e.t].waits, e.periodic, s.serial);
  }

  lemma CancelledWait(waits: seq<Wait>, n: nat, bound: nat)
    requires WaitsOk(waits, bound)
    requires exists i :: 0 <= i < |waits| && waits[i].serial == n && waits[i].phase == Armed
    ensures !Due(CancelAll(waits), n) && !Gone(waits, n)
    ensures forall periodic: bool, serial: nat :: serial != n ==> !Due(Arm(waits, periodic, serial), n)
  {
  }

  /** Starting a timer ends the operation whose wait it cancels. */
  lemma CancelledByStart(s: State, e: Event, c: Cause)
    requires Structure(s) && RunningGone(s) && Enabled(s, e) && e.StartTimer? && CancelsOperation(s, e.t, c)
    ensures !Owed(Step(s, e), c)
  {
    assert TimerOk(s.timers[e.t], s.serial, |s.queues|);
    CancelledWait(s.timers[e.t].waits, c.serial, s.serial);
    TimerStep(s, e, e.t);
    NoCallback(s, e, c);
  }

  lemma CancelledByStop(s: State, e: Event, c: Cause)
    requires Structure(s) && RunningGone(s) && Enabled(s, e) && e.StopTimer? && CancelsOperation(s, e.t, c)
    ensures !Owed(Step(s, e), c)
  {
    assert TimerOk(s.timers[e.t], s.serial, |s.queues|);
    CancelledWait(s.timers[e.t].waits, c.serial, s.serial);
    TimerStep(s, e, e.t);
    NoCallback(s, e, c);
  }

  /** A wait that is armed is not the one whose callback is running. */
  lemma NoCallback(s: State, e: Event, c: Cause)
    requires RunningGone(s) && Enabled(s, e) && (e.StartTimer? || e.StopTimer?) && CancelsOperation(s, e.t, c)
    ensures !CallbackOn(Step(s, e).stack, c.timer, c.serial)
  {
    FramesNext(s, e, TimerCallback(c.timer, c.serial, true));
    FramesNext(s, e, TimerCallback(c.timer, c.serial, false));
  }

  lemma KeptByStop(s: State, e: Event, c: Cause)
    requires Structure(s) && Enabled(s, e) && e.StopTimer? && Owed(Step(s, e), c)
    ensures Owed(s, c)
  {
    CancelOk(s.timers[e.t].waits, s.serial);
  }

  lemma NothingOwedAfterStop(s: State, e: Event, c: Cause)
    requires Orderly(s) && Enabled(s, e) && Disciplined(s, e) && e.StopTimer?
    ensures !Owed(Step(s, e), c)
  {
    if Owed(Step(s, e), c) {
      KeptByStop(s, e, c);
      assert StoppedBy(s, c);
      CancelledByStop(s, e, c);
    }
  }

  lemma StopOrderly(s: State, e: Event)
    requires Orderly(s) && Enabled(s, e) && Disciplined(s, e) && e.StopTimer?
    ensures OneOwed(Step(s, e)) && ProcessorOnTop(Step(s, e))
  {
    var u := Step(s, e);
    forall c
      ensures !Owed(u, c)
    {
      NothingOwedAfterStop(s, e, c);
    }
    assert u.stack[1..] == s.stack;
  }

  lemma OwedBeforePost(s: State, c: Cause)
    requires Structure(s) && Enabled(s, Post) && MayStart(s)
    requires Owed(Step(s, Post), c) && !Starts(s, Post, c)
    ensures Owed(s, c)
  {
  }

  lemma OwedBeforeRequest(s: State, c: Cause)
    requires Structure(s) && Enabled(s, Request) && MayStart(s)
    requires Owed(Step(s, Request), c) && !Starts(s, Request, c)
    ensures Owed(s, c)
  {
    var u := Step(s, Request);
    assert u.timers[..|s.timers|] == s.timers && u.timers[|s.timers|].queue == None;
  }

  lemma StartStops(s: State, e: Event, c: Cause)
    requires Structure(s) && Enabled(s, e) && Starts(s, e, c) && Owed(Step(s, e), c)
    ensures StoppedBy(Step(s, e), c)
  {
    match e {
      case StartTimer(_, _) => TimerStartStops(s, e, c);
      case Post => assert Current(s, s.dispatcherQueue);
      case Request => assert Current(s, s.clientQueue);
    }
  }

  lemma TimerStartStops(s: State, e: Event, c: Cause)
    requires Structure(s) && Enabled(s, e) && e.StartTimer? && Starts(s, e, c) && Owed(Step(s, e), c)
    ensures StoppedBy(Step(s, e), c)
  {
  }

  lemma StartKeepsTop(s: State, e: Event)
    requires Orderly(s) && Enabled(s, e) && Disciplined(s, e)
    requires e.StartTimer? || e == Post || e == Request
    ensures ProcessorOnTop(Step(s, e))
  {
    if e.StartTimer? {
      ArmOk(s.timers[e.t].waits, e.periodic, s.serial);
    }
  }

  // Every other step leaves outstanding only what was outstanding, and it launches
  // the current queue only when it ends the operation that stopped it.

  /** The step ends operation `c`. */
  predicate Ends(s: State, e: Event, c: Cause)
    requires Enabled(s, e)
  {
    if e == Return then
      match s.stack[0]
      case TimerCallback(t, n, periodic) => !periodic && c == ByTimer(t, n)
      case TaskCallback(j) => s.tasks[j].spare == 0 && c == ByTask(j)
      case ClientCallback(r) => c == ByClient(r)
      case _ => false
    else
      e.DropContext? && s.tasks[e.j].spare == 1 && s.tasks[e.j].phase == Finished && c == ByTask(e.j)
  }

  /** The step returns from a periodic callback, which arms its timer again. */
  predicate IsRearm(s: State, e: Event) {
    e == Return && s.stack != [] && s.stack[0].TimerCallback? && s.stack[0].periodic
  }

  lemma OwedBeforeTimerReturn(s: State, c: Cause)
    requires Structure(s) && RunningGone(s) && HandlersAtBottom(s)
    requires Enabled(s, Return) && s.stack[0].TimerCallback? && !s.stack[0].periodic
    requires Owed(Step(s, Return), c)
    ensures Owed(s, c) && !Ends(s, Return, c)
  {
    assert s.stack[0] in s.stack && |s.stack| == 1;
    CancelOk(s.timers[s.stack[0].timer].waits, s.serial);
  }

  lemma OwedBeforeReturn(s: State, c: Cause)
    requires Structure(s) && RunningGone(s) && HandlersAtBottom(s)
    requires Enabled(s, Return) && !IsRearm(s, Return) && Owed(Step(s, Return), c)
    ensures Owed(s, c) && !Ends(s, Return, c)
  {
    if s.stack[0].TimerCallback? {
      OwedBeforeTimerReturn(s, c);
    }
  }

  lemma OwedBeforeRearm(s: State, c: Cause)
    requires Structure(s) && RunningGone(s) && HandlersAtBottom(s) && Enabled(s, Return) && IsRearm(s, Return)
    requires Owed(Step(s, Return), c) && c != ByTimer(s.stack[0].timer, s.serial)
    ensures Owed(s, c) && c != ByTimer(s.stack[0].timer, s.stack[0].serial)
  {
    assert s.stack[0] in s.stack && |s.stack| == 1;
    ArmOk(s.timers[s.stack[0].timer].waits, true, s.serial);
  }

  /** A timer that arms itself again was what the queue waited for, and the queue then waits for its new wait. */
  lemma RearmOrderly(s: State)
    requires Orderly(s) && Enabled(s, Return) && IsRearm(s, Return)
    ensures OneOwed(Step(s, Return)) && ProcessorOnTop(Step(s, Return))
  {
    var u, t, n := Step(s, Return), s.stack[0].timer, s.stack[0].serial;
    assert s.stack[0] in s.stack && |s.stack| == 1;
    forall c | Owed(u, c)
      ensures StoppedBy(u, c)
    {
      if c != ByTimer(t, s.serial) {
        OwedBeforeRearm(s, c);
        assert StoppedBy(s, c);
        if Current(s, s.timers[t].queue) {
          OneStopper(s, c, ByTimer(t, n));
        }
      }
    }
  }

  lemma OwedBeforeTasks(s: State, e: Event, c: Cause)
    requires Structure(s) && Enabled(s, e) && Owed(Step(s, e), c)
    requires e.CopyContext? || e.DropContext? || e.RunTask?
    ensures Owed(s, c) && !Ends(s, e, c)
  {
  }

  lemma OwedBeforeWaits(s: State, e: Event, c: Cause)
    requires Structure(s) && Enabled(s, e) && Owed(Step(s, e), c)
    requires e.Elapse? || e.Dispatch?
    ensures Owed(s, c)
  {
    match e {
      case Elapse(t, i) => ExpireOk(s.timers[t].waits, i, s.serial);
      case Dispatch(t, i) => TakeOk(s.timers[t].waits, i, s.serial);
      case _ =>
    }
  }

  lemma DueBeforeResponse(s: State, e: Event, t: nat, n: nat)
    requires Structure(s) && Enabled(s, e) && Owed(Step(s, e), ByTimer(t, n))
    requires e.Connected? || e.Respond?
    ensures Owed(s, ByTimer(t, n))
  {
    assert TimerOk(s.timers[s.requests[e.r].timer], s.serial, |s.queues|);
  }

  lemma LiveBeforeResponse(s: State, e: Event, j: nat)
    requires Structure(s) && Enabled(s, e) && Owed(Step(s, e), ByTask(j))
    requires e.Connected? || e.Respond?
    ensures Owed(s, ByTask(j))
  {
    assert TimerOk(s.timers[s.requests[e.r].timer], s.serial, |s.queues|);
  }

  lemma OwedBeforeResponse(s: State, e: Event, c: Cause)
    requires Structure(s) && Enabled(s, e) && Owed(Step(s, e), c)
    requires e.Connected? || e.Respond?
    ensures Owed(s, c)
  {
    match c {
      case ByTimer(t, n) => DueBeforeResponse(s, e, t, n);
      case ByTask(j) => LiveBeforeResponse(s, e, j);
      case ByClient(_) => assert TimerOk(s.timers[s.requests[e.r].timer], s.serial, |s.queues|);
    }
  }

  lemma OwedBeforeFrames(s: State, e: Event, c: Cause)
    requires Structure(s) && Enabled(s, e) && Disciplined(s, e) && Owed(Step(s, e), c)
    requires e.NewRequest? || e.BeginProcessor? || e.EndLaunch? || e.Reply? || e.NewTimer?
    ensures Owed(s, c) && !e.NewRequest?
  {
  }

  predicate IsStart(e: Event) {
    e.StartTimer? || e == Post || e == Request
  }

  lemma OwedBefore(s: State, e: Event, c: Cause)
    requires Structure(s) && RunningGone(s) && HandlersAtBottom(s)
    requires Enabled(s, e) && Disciplined(s, e) && !Special(s, e)
    requires Owed(Step(s, e), c)
    ensures Owed(s, c) && !Ends(s, e, c) && !e.NewRequest?
  {
    match e {
      case Return => OwedBeforeReturn(s, c);
      case CopyContext(_) => OwedBeforeTasks(s, e, c);
      case DropContext(_) => OwedBeforeTasks(s, e, c);
      case RunTask(_) => OwedBeforeTasks(s, e, c);
      case Elapse(_, _) => OwedBeforeWaits(s, e, c);
      case Dispatch(_, _) => OwedBeforeWaits(s, e, c);
      case Connected(_, _, _) => OwedBeforeResponse(s, e, c);
      case Respond(_) => OwedBeforeResponse(s, e, c);
      case _ => OwedBeforeFrames(s, e, c);
    }
  }

  /** The steps that start, stop or arm an operation. */
  predicate Special(s: State, e: Event) {
    IsStart(e) || e.StopTimer? || IsRearm(s, e)
  }

  /** The step launches the current queue. */
  predicate Relaunches(s: State, e: Event)
    requires Enabled(s, e)
  {
    s.queues != [] && s.queues[|s.queues| - 1].stopped && |Step(s, e).queues| == |s.queues|
    && !Step(s, e).queues[|s.queues| - 1].stopped
  }

  lemma ResponseKeepsQueues(s: State, e: Event)
    requires Structure(s) && Enabled(s, e) && (e.Connected? || e.Respond?)
    ensures Step(s, e).queues == s.queues
  {
    assert TimerOk(s.timers[s.requests[e.r].timer], s.serial, |s.queues|);
  }

  lemma QueueOfReturn(s: State)
    requires Structure(s) && Enabled(s, Return) && !IsRearm(s, Return)
    ensures |Step(s, Return).queues| == |s.queues|
    ensures s.queues != [] ==>
              var before, after := s.queues[|s.queues| - 1], Step(s, Return).queues[|s.queues| - 1];
              after.stopper == before.stopper && (after.stopped ==> before.stopped)
  {
    assert s.stack[0] in s.stack;
  }

  lemma QueueNext(s: State, e: Event)
    requires Structure(s) && Enabled(s, e) && Disciplined(s, e) && !Special(s, e) && !e.NewRequest?
    ensures |Step(s, e).queues| == |s.queues|
    ensures s.queues != [] ==>
              var before, after := s.queues[|s.queues| - 1], Step(s, e).queues[|s.queues| - 1];
              after.stopper == before.stopper && (after.stopped ==> before.stopped)
  {
    if e == Return {
      QueueOfReturn(s);
    } else if e.Connected? || e.Respond? {
      ResponseKeepsQueues(s, e);
    }
  }

  /** A launch of the stopped queue ends an operation of the current request. */
  lemma ReturnEnds(s: State) returns (c: Cause)
    requires Structure(s) && Enabled(s, Return) && Relaunches(s, Return)
    ensures Ends(s, Return, c) && Owed(s, c)
  {
    assert s.stack[0] in s.stack;
    match s.stack[0] {
      case TimerCallback(t, n, _) => c := ByTimer(t, n);
      case TaskCallback(j) => c := ByTask(j);
      case ClientCallback(r) => c := ByClient(r);
    }
  }

  lemma RelaunchEnds(s: State, e: Event) returns (c: Cause)
    requires Structure(s) && Enabled(s, e) && Disciplined(s, e) && !Special(s, e) && Relaunches(s, e)
    ensures Ends(s, e, c) && Owed(s, c)
  {
    c := ByRouter;
    if e == Return {
      c := ReturnEnds(s);
    } else if e.Connected? || e.Respond? {
      ResponseKeepsQueues(s, e);
    } else if e.DropContext? {
      c := ByTask(e.j);
    }
  }

  lemma OneStopper(s: State, c: Cause, d: Cause)
    requires OneOwed(s) && Owed(s, c) && Owed(s, d)
    ensures c == d
  {
    assert StoppedBy(s, c) && StoppedBy(s, d);
  }

  lemma OneOwedStep(s: State, e: Event)
    requires Orderly(s) && Enabled(s, e) && Disciplined(s, e) && !Special(s, e)
    ensures OneOwed(Step(s, e))
  {
    var u := Step(s, e);
    forall c | Owed(u, c)
      ensures StoppedBy(u, c)
    {
      OwedBefore(s, e, c);
      QueueNext(s, e);
      if Relaunches(s, e) {
        var d := RelaunchEnds(s, e);
        OneStopper(s, c, d);
      }
    }
  }

  lemma HandlersReturn(s: State)
    requires HandlersAtBottom(s) && Enabled(s, Return)
    ensures HandlersAtBottom(Step(s, Return))
  {
    var u, rest := Step(s, Return), s.stack[1..];
    assert forall k :: 0 <= k < |rest| ==> rest[k] == s.stack[k + 1];
    assert u.stack == rest || (u.stack[0].Launching? && u.stack[1..] == rest);
    assert u.stack != rest ==> forall k :: 0 <= k < |rest| ==> u.stack[k + 1] == rest[k];
  }

  /** No other step puts anything on the stack but calls on top of what is there. */
  predicate PushesCalls(s: State, u: State) {
    || u.stack == s.stack
    || (u.stack != [] && u.stack[1..] == s.stack && !u.stack[0].TimerCallback?)
    || (&& u.stack != [] && s.stack != [] && u.stack[1..] == s.stack[1..]
        && !u.stack[0].TimerCallback? && !s.stack[0].TimerCallback?)
  }

  lemma HandlersPush(s: State, u: State)
    requires HandlersAtBottom(s) && PushesCalls(s, u)
    ensures HandlersAtBottom(u)
  {
    assert forall k :: 1 <= k < |u.stack| ==> u.stack[k] == u.stack[1..][k - 1];
    assert forall k :: 1 <= k < |s.stack| ==> s.stack[k] == s.stack[1..][k - 1];
  }

  lemma CallsPush(s: State, e: Event)
    requires Enabled(s, e) && (IsStart(e) || e.StopTimer? || e.DropContext?)
    ensures PushesCalls(s, Step(s, e))
  {
  }

  lemma ResponsePushes(s: State, e: Event)
    requires Structure(s) && Enabled(s, e) && (e.Connected? || e.Respond?)
    ensures PushesCalls(s, Step(s, e))
  {
    assert TimerOk(s.timers[s.requests[e.r].timer], s.serial, |s.queues|);
  }

  lemma OthersPush(s: State, e: Event)
    requires Enabled(s, e) && e != Return && e != EndLaunch && !e.Dispatch? && !e.RunTask?
    requires !IsStart(e) && !e.StopTimer? && !e.DropContext? && !e.Connected? && !e.Respond?
    ensures PushesCalls(s, Step(s, e))
  {
  }

  lemma HandlersStep(s: State, e: Event)
    requires Structure(s) && HandlersAtBottom(s) && Enabled(s, e)
    ensures HandlersAtBottom(Step(s, e))
  {
    if e == Return {
      HandlersReturn(s);
    } else if e == EndLaunch || e.Dispatch? || e.RunTask? {
      assert e == EndLaunch ==> forall k :: 0 <= k < |s.stack| - 1 ==> s.stack[1..][k] == s.stack[k + 1];
    } else {
      if IsStart(e) || e.StopTimer? || e.DropContext? {
        CallsPush(s, e);
      } else if e.Connected? || e.Respond? {
        ResponsePushes(s, e);
      } else {
        OthersPush(s, e);
      }
      HandlersPush(s, Step(s, e));
    }
  }

  lemma TopOfReturn(s: State)
    requires Orderly(s) && Enabled(s, Return)
    ensures ProcessorOnTop(Step(s, Return))
  {
    assert s.stack[0] in s.stack;
  }

  /** A processor never drops the last context of the operation that its request waits for. */
  lemma TopOfDrop(s: State, j: nat)
    requires Orderly(s) && Enabled(s, DropContext(j))
    ensures ProcessorOnTop(Step(s, DropContext(j)))
  {
    if s.stack != [] && s.stack[0].Processor? && Current(s, s.tasks[j].queue) {
      assert Owed(s, ByTask(j));
    }
  }

  lemma TopStep(s: State, e: Event)
    requires Orderly(s) && Enabled(s, e) && Disciplined(s, e) && !IsStart(e) && !e.StopTimer?
    ensures ProcessorOnTop(Step(s, e))
  {
    if e == Return {
      TopOfReturn(s);
    } else if e.DropContext? {
      TopOfDrop(s, e.j);
    } else if e.Elapse? {
      ExpireOk(s.timers[e.t].waits, e.i, s.serial);
    } else {
      TopOfOthers(s, e);
    }
  }

  lemma TopOfFrames(s: State, e: Event)
    requires Orderly(s) && Enabled(s, e) && !IsStart(e)
    requires e.NewRequest? || e.BeginProcessor? || e.EndLaunch? || e.Reply? || e.NewTimer?
    ensures ProcessorOnTop(Step(s, e))
  {
  }

  lemma TopOfOthers(s: State, e: Event)
    requires Orderly(s) && Enabled(s, e) && Disciplined(s, e) && !IsStart(e) && !e.StopTimer?
    requires e != Return && !e.DropContext? && !e.Elapse?
    ensures ProcessorOnTop(Step(s, e))
  {
    if e.NewRequest? || e.BeginProcessor? || e.EndLaunch? || e.Reply? || e.NewTimer? {
      TopOfFrames(s, e);
    }
  }

  lemma OrderlyStep(s: State, e: Event)
    requires Orderly(s) && Enabled(s, e) && Disciplined(s, e)
    ensures Orderly(Step(s, e))
  {
    StructureStep(s, e);
    RunningGoneStep(s, e);
    HandlersStep(s, e);
    if IsStart(e) {
      StartOrderly(s, e);
    } else if e.StopTimer? {
      StopOrderly(s, e);
    } else if IsRearm(s, e) {
      RearmOrderly(s);
    } else {
      OneOwedStep(s, e);
      TopStep(s, e);
    }
  }

  lemma {:induction false} OrderlyRun(s: State, es: seq<Event>)
    requires Orderly(s) && Legal(s, es) && DisciplinedRun(s, es)
    ensures Orderly(Run(s, es))
    decreases |es|
  {
    if es != [] {
      OrderlyStep(s, es[0]);
      OrderlyRun(Step(s, es[0]), es[1..]);
    }
  }

  lemma BeginsUndisturbed(s: State, c: Cause)
    requires Orderly(s) && Enabled(s, BeginProcessor)
    ensures !Owed(s, c) && (forall f :: f in s.stack ==> !f.Processor?)
  {
    assert s.stack[0] in s.stack;
  }

  /**
   * In a disciplined run a processor begins only when no operation of the
   * request is outstanding, no callback of one is running, and no other processor
   * is running.
   */
  lemma ProcessorsDoNotOverlap(es: seq<Event>, c: Cause)
    requires Legal(INIT, es) && DisciplinedRun(INIT, es) && Enabled(Run(INIT, es), BeginProcessor)
    ensures !Owed(Run(INIT, es), c) && (forall f :: f in Run(INIT, es).stack ==> !f.Processor?)
  {
    OrderlyRun(INIT, es);
    BeginsUndisturbed(Run(INIT, es), c);
  }
}
