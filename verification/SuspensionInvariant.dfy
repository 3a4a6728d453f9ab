/** The invariants of suspension and resumption, kept by every step. */
module SuspensionInvariant {
  import opened Options
  import opened Timers
  import opened Suspension

  // ---------------------------------------------------------------------------
  // Waits of one timer
  // ---------------------------------------------------------------------------

  lemma CancelOk(waits: seq<Wait>, bound: nat)
    requires WaitsOk(waits, bound)
    ensures WaitsOk(CancelAll(waits), bound)
    ensures forall i :: 0 <= i < |CancelAll(waits)| ==> CancelAll(waits)[i].phase != Armed
    ensures forall n :: Due(CancelAll(waits), n) ==> Due(waits, n)
  {
    forall n | Due(CancelAll(waits), n)
      ensures Due(waits, n)
    {
      var i :| 0 <= i < |waits| && CancelAll(waits)[i].serial == n && CancelAll(waits)[i].phase != Cancelled;
      assert waits[i].serial == n && waits[i].phase != Cancelled;
    }
  }

  lemma ArmOk(waits: seq<Wait>, periodic: bool, serial: nat)
    requires WaitsOk(waits, serial)
    ensures WaitsOk(Arm(waits, periodic, serial), serial + 1)
    ensures Due(Arm(waits, periodic, serial), serial)
    ensures forall n :: Due(Arm(waits, periodic, serial), n) ==> n == serial || Due(waits, n)
  {
    var armed := Arm(waits, periodic, serial);
    CancelOk(waits, serial);
    assert armed[|waits|] == Wait(Armed, periodic, serial);
    forall n | Due(armed, n) && n != serial
      ensures Due(waits, n)
    {
      var i :| 0 <= i < |armed| && armed[i].serial == n && armed[i].phase != Cancelled;
      assert armed[i] == CancelAll(waits)[i];
      assert Due(CancelAll(waits), n);
    }
  }

  lemma TakeOk(waits: seq<Wait>, i: nat, bound: nat)
    requires WaitsOk(waits, bound) && i < |waits|
    ensures WaitsOk(Take(waits, i), bound)
    ensures forall n :: Due(Take(waits, i), n) <==> Due(waits, n) && n != waits[i].serial
    ensures forall k :: 0 <= k < |Take(waits, i)| ==>
            Take(waits, i)[k] in waits && Take(waits, i)[k].serial != waits[i].serial
  {
    var taken := Take(waits, i);
    assert forall k :: 0 <= k < |taken| ==> taken[k] == waits[if k < i then k else k + 1];
    forall n | Due(waits, n) && n != waits[i].serial
      ensures Due(taken, n)
    {
      var k :| 0 <= k < |waits| && waits[k].serial == n && waits[k].phase != Cancelled;
      assert taken[if k < i then k else k - 1] == waits[k];
    }
  }

  lemma ExpireOk(waits: seq<Wait>, i: nat, bound: nat)
    requires WaitsOk(waits, bound) && i < |waits| && waits[i].phase == Armed
    ensures WaitsOk(Expire(waits, i), bound)
    ensures forall n :: Due(Expire(waits, i), n) <==> Due(waits, n)
  {
    var expired := Expire(waits, i);
    forall n | Due(waits, n)
      ensures Due(expired, n)
    {
      var k :| 0 <= k < |waits| && waits[k].serial == n && waits[k].phase != Cancelled;
      assert expired[k].serial == n && expired[k].phase != Cancelled;
    }
    forall n | Due(expired, n)
      ensures Due(waits, n)
    {
      var k :| 0 <= k < |expired| && expired[k].serial == n && expired[k].phase != Cancelled;
      assert waits[k].serial == n && waits[k].phase != Cancelled;
    }
  }

  // ---------------------------------------------------------------------------
  // Structure
  // ---------------------------------------------------------------------------

  predicate QueueOk(queue: Option<nat>, queues: nat) {
    queue.Some? ==> queue.value < queues
  }

  /** A timer of the client service has no queue: its provider never receives one. */
  predicate TimerOk(timer: Timer, serial: nat, queues: nat) {
    WaitsOk(timer.waits, serial) && QueueOk(timer.queue, queues) && (timer.owner.Timeout? ==> timer.queue == None)
  }

  predicate TaskOk(task: Task, queues: nat) {
    QueueOk(task.queue, queues) && (task.phase == Posted ==> task.spare == 0)
  }

  predicate TimersOk(s: State) {
    forall t :: 0 <= t < |s.timers| ==> TimerOk(s.timers[t], s.serial, |s.queues|)
  }

  predicate TasksOk(s: State) {
    forall j :: 0 <= j < |s.tasks| ==> TaskOk(s.tasks[j], |s.queues|)
  }

  /** Every client request has its own timeout timer. */
  predicate RequestsOk(s: State) {
    forall r :: 0 <= r < |s.requests| ==>
      s.requests[r].timer < |s.timers| && s.timers[s.requests[r].timer].owner == Timeout(r)
  }

  /** A frame belongs to something that exists, and a queue that runs is the current one. */
  predicate StackOk(s: State) {
    forall f :: f in s.stack ==>
      && FrameOk(s, f)
      && (f.Launching? || f.Processor? ==> f.queue == |s.queues| - 1)
      && (f.ClientCallback? ==> s.requests[f.request].phase == Answering)
      && (f.TaskCallback? ==> s.tasks[f.task].phase == Running)
  }

  /** A task that runs and a request that is being answered have their callback on the stack. */
  predicate CallbacksOk(s: State) {
    && (forall j :: 0 <= j < |s.tasks| && s.tasks[j].phase == Running ==> TaskCallback(j) in s.stack)
    && (forall r :: 0 <= r < |s.requests| && s.requests[r].phase == Answering ==> ClientCallback(r) in s.stack)
  }

  /** No callback is on the stack twice. */
  predicate Unique(stack: seq<Frame>) {
    stack == [] || ((stack[0].Launching? || stack[0].Processor? || stack[0] !in stack[1..]) && Unique(stack[1..]))
  }

  /** All services point to the queue of the current request, except the private timer provider. */
  predicate ServicesOk(s: State) {
    var current := if s.queues == [] then None else Some(|s.queues| - 1 as nat);
    && s.clientQueue == s.dispatcherQueue == s.providerQueue == current
    && s.privateQueue == None
    && (s.queues == [] ==> s.stack == [] && s.tasks == [] && s.requests == [] && s.timers == [])
  }

  predicate Structure(s: State) {
    && TimersOk(s) && TasksOk(s) && RequestsOk(s)
    && StackOk(s) && CallbacksOk(s) && Unique(s.stack) && ServicesOk(s)
  }

  lemma StopStructure(s: State, queue: Option<nat>, cause: Cause)
    requires Structure(s)
    ensures Structure(Stop(s, queue, cause))
  {
  }

  lemma LaunchStructure(s: State, queue: Option<nat>, cause: Cause)
    requires Structure(s)
    ensures Structure(Launch(s, queue, cause))
  {
    var t := Launch(s, queue, cause);
    if Current(s, queue) {
      assert t.stack[1..] == s.stack;
    }
  }

  lemma TimerStartStructure(s: State, t: nat, periodic: bool)
    requires Structure(s) && t < |s.timers|
    ensures Structure(TimerStart(s, t, periodic))
  {
    ArmOk(s.timers[t].waits, periodic, s.serial);
    var u := TimerStart(s, t, periodic);
    assert TimersOk(u);
    assert RequestsOk(u);
  }

  lemma TimerStopStructure(s: State, t: nat, cause: Cause)
    requires Structure(s) && t < |s.timers|
    ensures Structure(TimerStop(s, t, cause))
  {
    CancelOk(s.timers[t].waits, s.serial);
    var timer := s.timers[t].(waits := CancelAll(s.timers[t].waits));
    var u := s.(timers := s.timers[t := timer]);
    LaunchStructure(u, timer.queue, cause);
  }

  lemma NewRequestStructure(s: State, size: nat)
    requires Structure(s) && s.stack == []
    ensures Structure(NewRequestStep(s, size))
  {
  }

  lemma MakeRequestStructure(s: State)
    requires Structure(s) && s.queues != []
    ensures Structure(MakeRequest(s))
  {
    var r := |s.requests|;
    var stopped := Stop(s, s.clientQueue, ByClient(r));
    var t := EmplaceTimer(stopped, s.privateQueue, Timeout(r));
    var u := t.(requests := t.requests + [ClientRequest(Connecting, |s.timers|, false)]);
    StopStructure(s, s.clientQueue, ByClient(r));
    assert Structure(u);
    TimerStartStructure(u, |s.timers|, false);
  }

  lemma BeginResponseStructure(s: State, r: nat)
    requires Structure(s) && r < |s.requests| && s.requests[r].phase != Answering
    ensures Structure(BeginResponse(s, r))
  {
    var timer := s.requests[r].timer;
    var u := TimerStop(s, timer, ByTimerStop(timer));
    TimerStopStructure(s, timer, ByTimerStop(timer));
    assert u.stack == s.stack;
    assert BeginResponse(s, r).stack[1..] == s.stack;
  }

  lemma ReturnTimerStructure(s: State)
    requires Structure(s) && Enabled(s, Return) && s.stack[0].TimerCallback?
    ensures Structure(s.(stack := s.stack[1..])) && Structure(ReturnStep(s))
  {
    var popped := s.(stack := s.stack[1..]);
    assert Structure(popped);
    var TimerCallback(t, serial, periodic) := s.stack[0];
    if periodic {
      TimerStartStructure(popped, t, true);
    } else {
      TimerStopStructure(popped, t, ByTimer(t, serial));
    }
  }

  lemma ReturnTaskStructure(s: State)
    requires Structure(s) && Enabled(s, Return) && s.stack[0].TaskCallback?
    ensures Structure(ReturnStep(s))
  {
    var j := s.stack[0].task;
    var done := s.(stack := s.stack[1..], tasks := s.tasks[j := s.tasks[j].(phase := Finished)]);
    assert TaskOk(s.tasks[j], |s.queues|);
    assert TaskOk(done.tasks[j], |s.queues|);
    assert Structure(done);
    LaunchStructure(done, s.tasks[j].queue, ByTask(j));
  }

  lemma ReturnClientStructure(s: State)
    requires Structure(s) && Enabled(s, Return) && s.stack[0].ClientCallback?
    ensures Structure(ReturnStep(s))
  {
    var r := s.stack[0].request;
    var done := s.(stack := s.stack[1..], requests := s.requests[r := s.requests[r].(phase := Done)]);
    assert Structure(done);
    LaunchStructure(done, s.clientQueue, ByClient(r));
  }

  lemma ReturnStructure(s: State)
    requires Structure(s) && Enabled(s, Return)
    ensures Structure(ReturnStep(s))
  {
    match s.stack[0] {
      case Launching(_) =>
      case Processor(_, _, _) =>
      case TimerCallback(_, _, _) => ReturnTimerStructure(s);
      case TaskCallback(_) => ReturnTaskStructure(s);
      case ClientCallback(_) => ReturnClientStructure(s);
    }
  }

  lemma DropContextStructure(s: State, j: nat)
    requires Structure(s) && Enabled(s, DropContext(j))
    ensures Structure(DropContextStep(s, j))
  {
    var dropped := s.(tasks := s.tasks[j := s.tasks[j].(spare := s.tasks[j].spare - 1)]);
    assert TaskOk(s.tasks[j], |s.queues|);
    assert Structure(dropped);
    LaunchStructure(dropped, s.tasks[j].queue, ByTask(j));
  }

  lemma DispatchStructure(s: State, t: nat, i: nat)
    requires Structure(s) && Enabled(s, Dispatch(t, i))
    ensures Structure(DispatchStep(s, t, i))
  {
    TakeOk(s.timers[t].waits, i, s.serial);
  }

  lemma ElapseStructure(s: State, t: nat, i: nat)
    requires Structure(s) && Enabled(s, Elapse(t, i))
    ensures Structure(Step(s, Elapse(t, i)))
  {
    ExpireOk(s.timers[t].waits, i, s.serial);
  }

  lemma ChargeStructure(s: State)
    requires Structure(s)
    ensures Structure(Charge(s))
  {
  }

  lemma PostStructure(s: State)
    requires Structure(s) && s.queues != []
    ensures Structure(PostTask(s))
  {
  }

  lemma TasksStructure(s: State, e: Event)
    requires Structure(s) && Enabled(s, e)
    requires e.Post? || e.CopyContext? || e.DropContext? || e.RunTask?
    ensures Structure(Step(s, e))
  {
    match e {
      case Post => PostStructure(s); ChargeStructure(PostTask(s));
      case CopyContext(j) => assert TaskOk(s.tasks[j], |s.queues|);
      case DropContext(j) => DropContextStructure(s, j);
      case RunTask(j) => assert TaskOk(s.tasks[j], |s.queues|);
      case _ =>
    }
  }

  lemma FramesStructure(s: State, e: Event)
    requires Structure(s) && Enabled(s, e)
    requires e.NewRequest? || e.BeginProcessor? || e.EndLaunch? || e.Reply? || e.NewTimer?
    ensures Structure(Step(s, e))
  {
    match e {
      case NewRequest(size) => NewRequestStructure(s, size);
      case BeginProcessor => assert Step(s, e).stack[1..] == s.stack;
      case _ =>
    }
  }

  lemma StructureStep(s: State, e: Event)
    requires Structure(s) && Enabled(s, e)
    ensures Structure(Step(s, e))
  {
    match e {
      case Return => ReturnStructure(s);
      case StartTimer(t, periodic) => TimerStartStructure(s, t, periodic); ChargeStructure(TimerStart(s, t, periodic));
      case StopTimer(t) => TimerStopStructure(s, t, ByTimerStop(t));
      case Request => MakeRequestStructure(s); ChargeStructure(MakeRequest(s));
      case Elapse(t, i) => ElapseStructure(s, t, i);
      case Dispatch(t, i) => DispatchStructure(s, t, i);
      case Connected(r, error, accepted) => if error || !accepted { BeginResponseStructure(s, r); }
      case Respond(r) => BeginResponseStructure(s, r);
      case Post => TasksStructure(s, e);
      case CopyContext(_) => TasksStructure(s, e);
      case DropContext(_) => TasksStructure(s, e);
      case RunTask(_) => TasksStructure(s, e);
      case _ => FramesStructure(s, e);
    }
  }

  lemma {:induction false} StructureRun(s: State, es: seq<Event>)
    requires Structure(s) && Legal(s, es)
    ensures Structure(Run(s, es))
    decreases |es|
  {
    if es != [] {
      StructureStep(s, es[0]);
      StructureRun(Step(s, es[0]), es[1..]);
    }
  }
}
