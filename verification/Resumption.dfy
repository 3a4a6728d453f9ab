/**
 * No wake-up is lost: a stopped queue always has an outstanding operation, and the
 * end of that operation launches the queue, unless its timer is armed again.
 */
module Resumption {
  import opened Options
  import opened Timers
  import opened Suspension
  import opened SuspensionInvariant

  /** Some TaskContext of the task still exists. */
  predicate Live(task: Task) {
    task.phase != Finished || task.spare > 0
  }

  predicate CallbackOn(stack: seq<Frame>, t: nat, serial: nat) {
    TimerCallback(t, serial, true) in stack || TimerCallback(t, serial, false) in stack
  }

  /** The operation `c` of the current request is outstanding, or its callback is running. */
  predicate Owed(s: State, c: Cause) {
    match c
    case ByTimer(t, serial) =>
      && t < |s.timers| && Current(s, s.timers[t].queue)
      && (Due(s.timers[t].waits, serial) || CallbackOn(s.stack, t, serial))
    case ByTask(j) => j < |s.tasks| && Current(s, s.tasks[j].queue) && Live(s.tasks[j])
    case ByClient(r) =>
      && r < |s.requests|
      && (s.requests[r].phase == Connecting || s.requests[r].phase == Accepted || ClientCallback(r) in s.stack)
    case _ => false
  }

  /** The operation `c` of the current request is outstanding: a due wait, a live task, a request in progress. */
  predicate Outstanding(s: State, c: Cause) {
    match c
    case ByTimer(t, serial) => t < |s.timers| && Current(s, s.timers[t].queue) && Due(s.timers[t].waits, serial)
    case ByTask(j) => j < |s.tasks| && Current(s, s.tasks[j].queue) && Live(s.tasks[j])
    case ByClient(r) => r < |s.requests| && (s.requests[r].phase == Connecting || s.requests[r].phase == Accepted)
    case _ => false
  }

  /** Whoever stopped the current queue last still owes it a launch. */
  predicate Wakes(s: State) {
    s.queues != [] && s.queues[|s.queues| - 1].stopped ==> Owed(s, s.queues[|s.queues| - 1].stopper)
  }

  /** Arming a timer keeps the promise, since any wait it cancels belonged to the same queue. */
  lemma WakesTimerStart(s: State, t: nat, periodic: bool)
    requires Structure(s) && t < |s.timers| && (Wakes(s) || Current(s, s.timers[t].queue))
    ensures Wakes(TimerStart(s, t, periodic))
  {
    ArmOk(s.timers[t].waits, periodic, s.serial);
  }

  lemma WakesTimerStop(s: State, t: nat, cause: Cause)
    requires t < |s.timers| && (Wakes(s) || Current(s, s.timers[t].queue))
    ensures Wakes(TimerStop(s, t, cause))
  {
  }

  lemma WakesMakeRequest(s: State)
    requires Structure(s) && Wakes(s) && s.queues != []
    ensures Wakes(MakeRequest(s))
  {
    var r := |s.requests|;
    assert Current(s, s.clientQueue);
    var stopped := Stop(s, s.clientQueue, ByClient(r));
    var t := EmplaceTimer(stopped, s.privateQueue, Timeout(r));
    var u := t.(requests := s.requests + [ClientRequest(Connecting, |s.timers|, false)]);
    assert Owed(MakeRequest(s), ByClient(r));
  }

  lemma WakesBeginResponse(s: State, r: nat)
    requires Structure(s) && Wakes(s) && r < |s.requests|
    ensures Wakes(BeginResponse(s, r))
  {
    var timer := s.requests[r].timer;
    var u := TimerStop(s, timer, ByTimerStop(timer));
    WakesTimerStop(s, timer, ByTimerStop(timer));
    assert u.queues == s.queues && u.stack == s.stack;
  }

  /** When a callback returns, whatever it owed to the current queue is paid. */
  lemma WakesReturn(s: State)
    requires Structure(s) && Wakes(s) && Enabled(s, Return)
    ensures Wakes(ReturnStep(s))
  {
    var popped := s.(stack := s.stack[1..]);
    match s.stack[0] {
      case Launching(_) =>
      case Processor(_, _, _) =>
      case TimerCallback(t, serial, periodic) =>
        assert Structure(popped);
        if periodic {
          WakesTimerStart(popped, t, true);
        } else {
          WakesTimerStop(popped, t, ByTimer(t, serial));
        }
      case TaskCallback(j) =>
      case ClientCallback(r) =>
        assert Current(s, s.clientQueue);
    }
  }

  lemma WakesDispatch(s: State, t: nat, i: nat)
    requires Structure(s) && Wakes(s) && Enabled(s, Dispatch(t, i))
    ensures Wakes(DispatchStep(s, t, i))
  {
    TakeOk(s.timers[t].waits, i, s.serial);
  }

  lemma WakesCharge(s: State)
    requires Wakes(s)
    ensures Wakes(Charge(s))
  {
  }

  lemma WakesTasks(s: State, e: Event)
    requires Structure(s) && Wakes(s) && Enabled(s, e)
    requires e.Post? || e.CopyContext? || e.DropContext? || e.RunTask?
    ensures Wakes(Step(s, e))
  {
    match e {
      case Post => WakesCharge(PostTask(s));
      case _ =>
    }
  }

  lemma WakesFrames(s: State, e: Event)
    requires Structure(s) && Wakes(s) && Enabled(s, e)
    requires e.NewRequest? || e.BeginProcessor? || e.EndLaunch? || e.Reply? || e.NewTimer?
    ensures Wakes(Step(s, e))
  {
  }

  lemma WakesStep(s: State, e: Event)
    requires Structure(s) && Wakes(s) && Enabled(s, e)
    ensures Wakes(Step(s, e))
  {
    match e {
      case Return => WakesReturn(s);
      case StartTimer(t, periodic) => WakesTimerStart(s, t, periodic); WakesCharge(TimerStart(s, t, periodic));
      case StopTimer(t) => WakesTimerStop(s, t, ByTimerStop(t));
      case Request => WakesMakeRequest(s); WakesCharge(MakeRequest(s));
      case Elapse(t, i) => ExpireOk(s.timers[t].waits, i, s.serial);
      case Dispatch(t, i) => WakesDispatch(s, t, i);
      case Connected(r, error, accepted) => if error || !accepted { WakesBeginResponse(s, r); }
      case Respond(r) => WakesBeginResponse(s, r);
      case Post => WakesTasks(s, e);
      case CopyContext(_) => WakesTasks(s, e);
      case DropContext(_) => WakesTasks(s, e);
      case RunTask(_) => WakesTasks(s, e);
      case _ => WakesFrames(s, e);
    }
  }

  lemma {:induction false} WakesRun(s: State, es: seq<Event>)
    requires Structure(s) && Wakes(s) && Legal(s, es)
    ensures Structure(Run(s, es)) && Wakes(Run(s, es))
    decreases |es|
  {
    if es != [] {
      StructureStep(s, es[0]);
      WakesStep(s, es[0]);
      WakesRun(Step(s, es[0]), es[1..]);
    }
  }

  /**
   * Between handlers, whenever the queue of the current request is stopped, the
   * very operation that stopped it last is still outstanding, for any mix of
   * timers, tasks and client requests.
   */
  lemma NoLostWakeup(es: seq<Event>)
    requires Legal(INIT, es)
    ensures var s := Run(INIT, es);
            s.stack == [] && s.queues != [] && s.queues[|s.queues| - 1].stopped
            ==> Outstanding(s, s.queues[|s.queues| - 1].stopper)
  {
    WakesRun(INIT, es);
  }

  // ---------------------------------------------------------------------------
  // Resolution
  // ---------------------------------------------------------------------------

  /** The step launches the current queue on behalf of `cause`. */
  predicate LaunchedBy(s: State, e: Event, cause: Cause)
    requires Enabled(s, e) && s.queues != []
  {
    var t, q := Step(s, e), |s.queues| - 1;
    && |t.queues| == |s.queues| && !t.queues[q].stopped
    && t.stack != [] && t.stack[0] == Launching(q) && t.log == s.log + [Launched(q, cause)]
  }

  /** A launch on behalf of `cause` comes from operation `c`: from itself or, if it is a wait, from its timer. */
  predicate ComesFrom(cause: Cause, c: Cause) {
    || cause == c
    || (c.ByTimer? && cause.ByTimer? && cause.timer == c.timer)
    || (c.ByTimer? && cause == ByTimerStop(c.timer))
  }

  /**
   * The step starts timer `t` again, by a call or at the end of a periodic callback: the
   * queue waits for the new wait.
   */
  predicate Rearmed(s: State, e: Event, t: nat)
    requires Enabled(s, e) && s.queues != []
  {
    var u, q := Step(s, e), |s.queues| - 1;
    && (|| (e.StartTimer? && e.t == t)
        || (e == Return && s.stack[0].TimerCallback? && s.stack[0].timer == t && s.stack[0].periodic))
    && |u.queues| == |s.queues| && u.queues[q].stopped && u.queues[q].stopper == ByTimer(t, s.serial)
    && Owed(u, ByTimer(t, s.serial))
  }

  /** The step ends operation `c`, which has stopped the current queue. */
  predicate Resolves(s: State, e: Event, c: Cause)
    requires Enabled(s, e)
  {
    && s.queues != [] && s.queues[|s.queues| - 1].stopped && s.queues[|s.queues| - 1].stopper == c
    && !e.NewRequest? && !Owed(Step(s, e), c)
  }

  lemma TimerResolution(s: State, e: Event, t: nat, n: nat) returns (cause: Cause)
    requires Structure(s) && Wakes(s) && Enabled(s, e) && Resolves(s, e, ByTimer(t, n))
    requires e == StopTimer(t) || (e == Return && s.stack[0].TimerCallback? && s.stack[0].timer == t)
            || (e.StartTimer? && e.t == t)
    ensures Rearmed(s, e, t) || (LaunchedBy(s, e, cause) && ComesFrom(cause, ByTimer(t, n)))
  {
    cause := ByTimerStop(t);
    if e == Return && s.stack[0].periodic {
      ArmOk(s.timers[t].waits, true, s.serial);
    } else if e == Return {
      cause := ByTimer(t, s.stack[0].serial);
      TimerEnds(s);
    } else if e.StartTimer? {
      ArmOk(s.timers[t].waits, e.periodic, s.serial);
    }
  }

  lemma TimerEnds(s: State)
    requires Structure(s) && Enabled(s, Return) && s.stack[0].TimerCallback? && !s.stack[0].periodic
    requires Current(s, s.timers[s.stack[0].timer].queue)
    ensures LaunchedBy(s, Return, ByTimer(s.stack[0].timer, s.stack[0].serial))
  {
  }

  /** Only its own timer ends a wait of the current request. */
  lemma WaitKept(s: State, e: Event, t: nat, n: nat)
    requires Structure(s) && Owed(s, ByTimer(t, n)) && Enabled(s, e) && !e.NewRequest?
    requires e == Return ==> !s.stack[0].TimerCallback? || s.stack[0].timer != t
    requires (e.StartTimer? || e.StopTimer?) ==> e.t != t
    ensures Owed(Step(s, e), ByTimer(t, n))
  {
    if e.Elapse? || e.Dispatch? {
      WaitKeptByWaits(s, e, t, n);
    } else if e == Return {
      WaitKeptByReturn(s, t, n);
    } else if e.Connected? || e.Respond? {
      WaitKeptByResponse(s, e, t, n);
    } else if e.StartTimer? || e == Post || e == Request {
      WaitKeptByStarts(s, e, t, n);
    } else if e.StopTimer? || e.DropContext? {
      WaitKeptByLaunches(s, e, t, n);
    } else {
      WaitKeptByCalls(s, e, t, n);
    }
  }

  lemma WaitKeptByWaits(s: State, e: Event, t: nat, n: nat)
    requires Structure(s) && Owed(s, ByTimer(t, n)) && Enabled(s, e) && (e.Elapse? || e.Dispatch?)
    ensures Owed(Step(s, e), ByTimer(t, n))
  {
    assert TimerOk(s.timers[e.t], s.serial, |s.queues|);
    if e.Elapse? {
      ExpireOk(s.timers[e.t].waits, e.i, s.serial);
    } else {
      TakeOk(s.timers[e.t].waits, e.i, s.serial);
    }
  }

  lemma WaitKeptByReturn(s: State, t: nat, n: nat)
    requires Structure(s) && Owed(s, ByTimer(t, n)) && Enabled(s, Return)
    requires !s.stack[0].TimerCallback? || s.stack[0].timer != t
    ensures Owed(Step(s, Return), ByTimer(t, n))
  {
  }

  lemma WaitKeptByResponse(s: State, e: Event, t: nat, n: nat)
    requires Structure(s) && Owed(s, ByTimer(t, n)) && Enabled(s, e) && (e.Connected? || e.Respond?)
    ensures Owed(Step(s, e), ByTimer(t, n))
  {
    assert TimerOk(s.timers[s.requests[e.r].timer], s.serial, |s.queues|);
  }

  lemma WaitKeptByStart(s: State, u: nat, periodic: bool, t: nat, n: nat)
    requires Owed(s, ByTimer(t, n)) && u < |s.timers| && u != t
    ensures Owed(TimerStart(s, u, periodic), ByTimer(t, n))
  {
  }

  lemma WaitKeptByRequest(s: State, t: nat, n: nat)
    requires Owed(s, ByTimer(t, n))
    ensures Owed(MakeRequest(s), ByTimer(t, n))
  {
    assert MakeRequest(s).timers[..|s.timers|] == s.timers;
  }

  lemma WaitKeptByCharge(s: State, t: nat, n: nat)
    requires Owed(s, ByTimer(t, n))
    ensures Owed(Charge(s), ByTimer(t, n))
  {
  }

  lemma WaitKeptByStarts(s: State, e: Event, t: nat, n: nat)
    requires Owed(s, ByTimer(t, n)) && Enabled(s, e) && (e.StartTimer? || e == Post || e == Request)
    requires e.StartTimer? ==> e.t != t
    ensures Owed(Step(s, e), ByTimer(t, n))
  {
    match e {
      case StartTimer(u, periodic) =>
        WaitKeptByStart(s, u, periodic, t, n);
        WaitKeptByCharge(TimerStart(s, u, periodic), t, n);
      case Post =>
        WaitKeptByCharge(PostTask(s), t, n);
      case Request =>
        WaitKeptByRequest(s, t, n);
        WaitKeptByCharge(MakeRequest(s), t, n);
    }
  }

  lemma WaitKeptByLaunches(s: State, e: Event, t: nat, n: nat)
    requires Structure(s) && Owed(s, ByTimer(t, n)) && Enabled(s, e) && (e.StopTimer? || e.DropContext?)
    requires e.StopTimer? ==> e.t != t
    ensures Owed(Step(s, e), ByTimer(t, n))
  {
  }

  lemma WaitKeptByCalls(s: State, e: Event, t: nat, n: nat)
    requires Structure(s) && Owed(s, ByTimer(t, n)) && Enabled(s, e) && !e.NewRequest?
    requires !e.StartTimer? && e != Post && e != Request && !e.StopTimer? && !e.DropContext?
    requires !e.Elapse? && !e.Dispatch? && e != Return && !e.Connected? && !e.Respond?
    ensures Owed(Step(s, e), ByTimer(t, n))
  {
  }

  /** The steps that can change tasks and client requests. */
  predicate UsesTasks(e: Event) {
    e == Return || e == Post || e.CopyContext? || e.DropContext? || e.RunTask?
  }

  predicate UsesRequests(e: Event) {
    e == Return || e == Request || e.Connected? || e.Respond?
  }

  lemma TasksKept(s: State, e: Event)
    requires Enabled(s, e) && !UsesTasks(e)
    ensures Step(s, e).tasks == s.tasks && (!e.NewRequest? ==> |Step(s, e).queues| == |s.queues|)
  {
  }

  lemma RequestsKept(s: State, e: Event)
    requires Enabled(s, e) && !UsesRequests(e)
    ensures Step(s, e).requests == s.requests
    ensures forall f :: f in s.stack && f.ClientCallback? ==> f in Step(s, e).stack
  {
  }

  lemma TaskResolution(s: State, e: Event, j: nat)
    requires Structure(s) && Wakes(s) && Enabled(s, e) && Resolves(s, e, ByTask(j))
    ensures LaunchedBy(s, e, ByTask(j))
  {
    if !UsesTasks(e) {
      TasksKept(s, e);
    } else if e == Return {
      TaskReturn(s, j);
    } else if e.DropContext? {
      TaskDrop(s, e, j);
    }
  }

  lemma TaskDrop(s: State, e: Event, j: nat)
    requires Structure(s) && Wakes(s) && Enabled(s, e) && Resolves(s, e, ByTask(j)) && e.DropContext?
    ensures LaunchedBy(s, e, ByTask(j))
  {
  }

  lemma TaskReturn(s: State, j: nat)
    requires Structure(s) && Wakes(s) && Enabled(s, Return) && Resolves(s, Return, ByTask(j))
    ensures LaunchedBy(s, Return, ByTask(j))
  {
  }

  lemma ClientResolution(s: State, e: Event, r: nat)
    requires Structure(s) && Wakes(s) && Enabled(s, e) && Resolves(s, e, ByClient(r))
    ensures LaunchedBy(s, e, ByClient(r))
  {
    if !UsesRequests(e) {
      RequestsKept(s, e);
    } else if e == Return {
      ClientReturn(s, r);
    } else if e.Connected? || e.Respond? {
      ResponseKeepsRequests(s, e, r);
    }
  }

  lemma ClientReturn(s: State, r: nat)
    requires Structure(s) && Wakes(s) && Enabled(s, Return) && Resolves(s, Return, ByClient(r))
    ensures LaunchedBy(s, Return, ByClient(r))
  {
    assert Current(s, s.clientQueue);
  }

  lemma ResponseKeepsRequests(s: State, e: Event, r: nat)
    requires Structure(s) && Owed(s, ByClient(r)) && Enabled(s, e) && (e.Connected? || e.Respond?)
    ensures Owed(Step(s, e), ByClient(r))
  {
    assert TimerOk(s.timers[s.requests[e.r].timer], s.serial, |s.queues|);
  }

  /**
   * The step that ends the operation which stopped the queue launches the queue
   * there and then, on behalf of that operation or its timer. The exception is a
   * timer that is started again or re-arms itself: the queue stays stopped, and
   * the new wait takes the place of the old one.
   */
  lemma ResolutionLaunches(s: State, e: Event, c: Cause) returns (cause: Cause)
    requires Structure(s) && Wakes(s) && Enabled(s, e) && Resolves(s, e, c)
    ensures (LaunchedBy(s, e, cause) && ComesFrom(cause, c)) || (c.ByTimer? && Rearmed(s, e, c.timer))
  {
    cause := c;
    match c {
      case ByTimer(t, n) =>
        if e == StopTimer(t) || (e == Return && s.stack[0].TimerCallback? && s.stack[0].timer == t)
            || (e.StartTimer? && e.t == t) {
          cause := TimerResolution(s, e, t, n);
        } else {
          WaitKept(s, e, t, n);
        }
      case ByTask(j) => TaskResolution(s, e, j);
      case ByClient(r) => ClientResolution(s, e, r);
    }
  }

  /** The same for every step of every run. */
  lemma EveryResolutionLaunches(es: seq<Event>, e: Event, c: Cause) returns (cause: Cause)
    requires Legal(INIT, es) && Enabled(Run(INIT, es), e) && Resolves(Run(INIT, es), e, c)
    ensures var s := Run(INIT, es);
            (LaunchedBy(s, e, cause) && ComesFrom(cause, c)) || (c.ByTimer? && Rearmed(s, e, c.timer))
  {
    WakesRun(INIT, es);
    cause := ResolutionLaunches(Run(INIT, es), e, c);
  }
}
