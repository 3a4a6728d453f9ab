/**
 * Suspending and resuming the processing of a request: the queue of the current
 * request, the timers, posted tasks and client requests that stop it, and the
 * call stack of the thread that runs the handlers of the connection.
 *
 * Every request is taken to go through a router, which gives it a fresh queue.
 * A queue lives as long as its request is the current one; to stop or launch it
 * later has no effect here (see `GoneQueues`).
 */
module Suspension {
  import opened Options
  import opened Timers

  /** What stopped or launched a queue. */
  datatype Cause =
    | ByRouter
    | ByTimer(timer: nat, serial: nat)
    | ByTimerStop(timer: nat)
    | ByTask(task: nat)
    | ByClient(request: nat)

  datatype Queue = Queue(
    stopped: bool,
    stopper: Cause,     // who called `stop` last
    next: nat,          // the first processor that has not begun
    size: nat,
    answered: bool)     // the router finds the response sent

  /** A timer belongs to the application or guards the client request `request`. */
  datatype Owner = Application | Timeout(request: nat)

  datatype Timer = Timer(queue: Option<nat>, owner: Owner, waits: seq<Wait>)

  /** A posted task: the lambda in the io_context holds one TaskContext until it has run. */
  datatype TaskPhase = Posted | Running | Finished

  datatype Task = Task(queue: Option<nat>, phase: TaskPhase, spare: nat)

  datatype RequestPhase = Connecting | Accepted | Answering | Done

  /** `cancels`: the function that the timeout calls is no longer empty, and cancels the request. */
  datatype ClientRequest = ClientRequest(phase: RequestPhase, timer: nat, cancels: bool)

  /** Function calls in progress, innermost first. */
  datatype Frame =
    | Launching(queue: nat)
    | Processor(queue: nat, index: nat, operations: nat)   // operations it has started
    | TimerCallback(timer: nat, serial: nat, periodic: bool)
    | TaskCallback(task: nat)
    | ClientCallback(request: nat)

  datatype Entry =
    | Launched(queue: nat, cause: Cause)
    | CallbackRun(timer: nat, serial: nat)
    | TimeoutStopped(request: nat)
    | HandlerRun(request: nat)

  datatype State = State(
    queues: seq<Queue>,              // one per request, the last is current
    timers: seq<Timer>,
    tasks: seq<Task>,
    requests: seq<ClientRequest>,
    providerQueue: Option<nat>,      // TimerProvider::requestProcessorQueue_ of the connection
    privateQueue: Option<nat>,       // the same field of the provider inside ClientService
    clientQueue: Option<nat>,        // ClientService::requestProcessorQueue_
    dispatcherQueue: Option<nat>,    // AsioDispatcherService::requestProcessorQueue_
    stack: seq<Frame>,
    serial: nat,
    log: seq<Entry>)

  const INIT := State([], [], [], [], None, None, None, None, [], 0, [])

  // ---------------------------------------------------------------------------
  // The queue
  // ---------------------------------------------------------------------------

  predicate Current(s: State, queue: Option<nat>) {
    queue.Some? && queue.value < |s.queues| && queue.value == |s.queues| - 1
  }

  function Stop(s: State, queue: Option<nat>, cause: Cause): State {
    if Current(s, queue) then
      s.(queues := s.queues[queue.value := s.queues[queue.value].(stopped := true, stopper := cause)])
    else s
  }

  function Launch(s: State, queue: Option<nat>, cause: Cause): State {
    if Current(s, queue) then
      s.(queues := s.queues[queue.value := s.queues[queue.value].(stopped := false)],
         stack := [Launching(queue.value)] + s.stack,
         log := s.log + [Launched(queue.value, cause)])
    else s
  }

  // ---------------------------------------------------------------------------
  // The services
  // ---------------------------------------------------------------------------

  /** `ResponseContext::setRequestProcessorQueue`. */
  function SetQueue(s: State, queue: Option<nat>): State {
    s.(clientQueue := queue, dispatcherQueue := queue, providerQueue := queue)
  }

  function EmplaceTimer(s: State, queue: Option<nat>, owner: Owner): State {
    s.(timers := s.timers + [Timer(queue, owner, [])])
  }

  /** `TimerService::start` and `startPeriodic`. */
  function TimerStart(s: State, t: nat, periodic: bool): State
    requires t < |s.timers|
  {
    var timer := s.timers[t];
    var s := Stop(s, timer.queue, ByTimer(t, s.serial));
    s.(timers := s.timers[t := timer.(waits := Arm(timer.waits, periodic, s.serial))], serial := s.serial + 1)
  }

  /** `TimerService::stop`. */
  function TimerStop(s: State, t: nat, cause: Cause): State
    requires t < |s.timers|
  {
    var timer := s.timers[t];
    Launch(s.(timers := s.timers[t := timer.(waits := CancelAll(timer.waits))]), timer.queue, cause)
  }

  /** `AsioDispatcherService::postTask`. */
  function PostTask(s: State): State {
    var t := Stop(s, s.dispatcherQueue, ByTask(|s.tasks|));
    t.(tasks := t.tasks + [Task(s.dispatcherQueue, Posted, 0)])
  }

  /** The last TaskContext of task `j` is destroyed: its PostAction runs. */
  function FinishTask(s: State, j: nat): State
    requires j < |s.tasks|
  {
    Launch(s, s.tasks[j].queue, ByTask(j))
  }

  /** `ClientService::makeRequest`: stop the queue, start the timeout timer, connect. */
  function MakeRequest(s: State): State {
    var r := |s.requests|;
    var t := EmplaceTimer(Stop(s, s.clientQueue, ByClient(r)), s.privateQueue, Timeout(r));
    TimerStart(t.(requests := t.requests + [ClientRequest(Connecting, |s.timers|, false)]), |s.timers|, false)
  }

  /** `onResponseReceived`, up to the response handler of the caller. */
  function BeginResponse(s: State, r: nat): State
    requires r < |s.requests| && s.requests[r].timer < |s.timers|
  {
    var s := TimerStop(s, s.requests[r].timer, ByTimerStop(s.requests[r].timer));
    s.(requests := s.requests[r := s.requests[r].(phase := Answering)],
       stack := [ClientCallback(r)] + s.stack,
       log := s.log + [TimeoutStopped(r), HandlerRun(r)])
  }

  /** The rest of `onResponseReceived`. */
  function EndResponse(s: State, r: nat): State
    requires r < |s.requests|
  {
    Launch(s.(requests := s.requests[r := s.requests[r].(phase := Done)]), s.clientQueue, ByClient(r))
  }

  // ---------------------------------------------------------------------------
  // Steps
  // ---------------------------------------------------------------------------

  datatype Event =
    | NewRequest(size: nat)                     // a request reaches the router, `size` processors match
    | BeginProcessor                            // the launched queue calls the next processor
    | EndLaunch                                 // `launch` returns
    | Return                                    // a processor or callback returns
    | Reply                                     // code of the application answers the request
    | NewTimer                                  // ... and uses the services
    | StartTimer(t: nat, periodic: bool)
    | StopTimer(t: nat)
    | Post
    | CopyContext(j: nat)
    | DropContext(j: nat)
    | Request
    | Elapse(t: nat, i: nat)                    // an armed wait expires
    | Dispatch(t: nat, i: nat)                  // the handler of a wait runs
    | RunTask(j: nat)                           // the posted lambda runs
    | Connected(r: nat, error: bool, accepted: bool)
    | Respond(r: nat)                           // the library hands the result of an accepted request over

  /**
   * Code of the application is running: in a processor, in a callback, or in a
   * handler of its own. It reaches the services through the responder of a request.
   */
  predicate InApplication(s: State) {
    s.queues != [] &&
    (s.stack == [] || match s.stack[0]
      case Launching(_) => false
      case TimerCallback(t, _, _) => t < |s.timers| && s.timers[t].owner == Application
      case _ => true)
  }

  /** The callback of the timeout timer of request `r` is running. */
  predicate TimingOut(s: State, r: nat) {
    s.stack != [] && s.stack[0].TimerCallback? && s.stack[0].timer < |s.timers|
        && s.timers[s.stack[0].timer].owner == Timeout(r)
  }

  /**
   * The library may call the response handler of a request for the first time:
   * from a handler of the socket if it has accepted the request, or when the
   * timeout calls a function that cancels the request.
   */
  predicate MayRespond(s: State, r: nat)
    requires r < |s.requests|
  {
    var request := s.requests[r];
    || (s.stack == [] && request.phase == Accepted)
    || (TimingOut(s, r) && request.cancels && (request.phase == Connecting || request.phase == Accepted))
  }

  predicate Enabled(s: State, e: Event) {
    match e
    case NewRequest(_) => s.stack == []
    case BeginProcessor =>
      && s.stack != [] && s.stack[0].Launching? && s.stack[0].queue < |s.queues|
      && var q := s.queues[s.stack[0].queue]; !q.stopped && !q.answered && q.next < q.size
    case EndLaunch =>
      && s.stack != [] && s.stack[0].Launching? && s.stack[0].queue < |s.queues|
      && var q := s.queues[s.stack[0].queue]; q.stopped || q.answered || q.next >= q.size
    case Return => s.stack != [] && !s.stack[0].Launching? && FrameOk(s, s.stack[0])
    case Reply => InApplication(s)
    case NewTimer => InApplication(s)
    case StartTimer(t, _) => InApplication(s) && t < |s.timers| && s.timers[t].owner == Application
    case StopTimer(t) => InApplication(s) && t < |s.timers| && s.timers[t].owner == Application
    case Post => InApplication(s)
    case CopyContext(j) => InApplication(s) && j < |s.tasks| && (s.tasks[j].phase == Running || s.tasks[j].spare > 0)
    case DropContext(j) => InApplication(s) && j < |s.tasks| && s.tasks[j].spare > 0
    case Request => InApplication(s)
    case Elapse(t, i) => t < |s.timers| && i < |s.timers[t].waits| && s.timers[t].waits[i].phase == Armed
    case Dispatch(t, i) => s.stack == [] && t < |s.timers| && i < |s.timers[t].waits|
        && s.timers[t].waits[i].phase != Armed
    case RunTask(j) => s.stack == [] && j < |s.tasks| && s.tasks[j].phase == Posted
    case Connected(r, _, _) =>
      s.stack == [] && r < |s.requests| && s.requests[r].phase == Connecting && s.requests[r].timer < |s.timers|
    case Respond(r) =>
      r < |s.requests| && s.requests[r].timer < |s.timers| && MayRespond(s, r)
  }

  predicate FrameOk(s: State, f: Frame) {
    match f
    case Launching(q) => q < |s.queues|
    case Processor(q, _, _) => q < |s.queues|
    case TimerCallback(t, _, _) => t < |s.timers|
    case TaskCallback(j) => j < |s.tasks|
    case ClientCallback(r) => r < |s.requests|
  }

  function NewRequestStep(s: State, size: nat): State {
    var q := |s.queues|;
    var t := SetQueue(s.(queues := s.queues + [Queue(false, ByRouter, 0, size, false)]), Some(q));
    Launch(t, Some(q), ByRouter)
  }

  function BeginProcessorStep(s: State): State
    requires Enabled(s, BeginProcessor)
  {
    var q := s.stack[0].queue;
    s.(queues := s.queues[q := s.queues[q].(next := s.queues[q].next + 1)],
       stack := [Processor(q, s.queues[q].next, 0)] + s.stack)
  }

  /** The rest of the handler after its callback has returned. */
  function ReturnStep(s: State): State
    requires Enabled(s, Return)
  {
    var popped := s.(stack := s.stack[1..]);
    match s.stack[0]
    case Launching(_) => popped
    case Processor(_, _, _) => popped
    case TimerCallback(t, serial, periodic) =>
      if periodic then TimerStart(popped, t, true) else TimerStop(popped, t, ByTimer(t, serial))
    case TaskCallback(j) =>
      var done := popped.(tasks := s.tasks[j := s.tasks[j].(phase := Finished)]);
      if s.tasks[j].spare == 0 then FinishTask(done, j) else done
    case ClientCallback(r) => EndResponse(popped, r)
  }

  function DropContextStep(s: State, j: nat): State
    requires j < |s.tasks| && s.tasks[j].spare > 0
  {
    var dropped := s.(tasks := s.tasks[j := s.tasks[j].(spare := s.tasks[j].spare - 1)]);
    if s.tasks[j].spare == 1 && s.tasks[j].phase == Finished then FinishTask(dropped, j) else dropped
  }

  function DispatchStep(s: State, t: nat, i: nat): State
    requires t < |s.timers| && i < |s.timers[t].waits|
  {
    var wait := s.timers[t].waits[i];
    var taken := s.(timers := s.timers[t := s.timers[t].(waits := Take(s.timers[t].waits, i))]);
    if wait.phase == Expired then
      taken.(stack := [TimerCallback(t, wait.serial, wait.periodic)] + s.stack,
             log := s.log + [CallbackRun(t, wait.serial)])
    else taken
  }

  function ConnectedStep(s: State, r: nat, error: bool, accepted: bool): State
    requires r < |s.requests| && s.requests[r].timer < |s.timers|
  {
    if error || !accepted then BeginResponse(s, r)
    else s.(requests := s.requests[r := s.requests[r].(phase := Accepted, cancels := true)])
  }

  /** The running processor is charged with an operation it starts. */
  function Charge(s: State): State {
    if s.stack != [] && s.stack[0].Processor?
    then s.(stack := [s.stack[0].(operations := s.stack[0].operations + 1)] + s.stack[1..]) else s
  }

  function Step(s: State, e: Event): State
    requires Enabled(s, e)
  {
    match e
    case NewRequest(size) => NewRequestStep(s, size)
    case BeginProcessor => BeginProcessorStep(s)
    case EndLaunch => s.(stack := s.stack[1..])
    case Return => ReturnStep(s)
    case Reply =>
      var q := |s.queues| - 1;
      s.(queues := s.queues[q := s.queues[q].(answered := true)])
    case NewTimer => EmplaceTimer(s, s.providerQueue, Application)
    case StartTimer(t, periodic) => Charge(TimerStart(s, t, periodic))
    case StopTimer(t) => TimerStop(s, t, ByTimerStop(t))
    case Post => Charge(PostTask(s))
    case CopyContext(j) => s.(tasks := s.tasks[j := s.tasks[j].(spare := s.tasks[j].spare + 1)])
    case DropContext(j) => DropContextStep(s, j)
    case Request => Charge(MakeRequest(s))
    case Elapse(t, i) => s.(timers := s.timers[t := s.timers[t].(waits := Expire(s.timers[t].waits, i))])
    case Dispatch(t, i) => DispatchStep(s, t, i)
    case RunTask(j) =>
      s.(tasks := s.tasks[j := s.tasks[j].(phase := Running)], stack := [TaskCallback(j)])
    case Connected(r, error, accepted) => ConnectedStep(s, r, error, accepted)
    case Respond(r) => BeginResponse(s, r)
  }

  predicate Legal(s: State, es: seq<Event>)
    decreases |es|
  {
    es == [] || (Enabled(s, es[0]) && Legal(Step(s, es[0]), es[1..]))
  }

  function Run(s: State, es: seq<Event>): State
    requires Legal(s, es)
    decreases |es|
  {
    if es == [] then s else Run(Step(s, es[0]), es[1..])
  }

  /** A run goes on by one event at its end, or has one before it. */
  lemma {:induction false} AppendOne(s: State, es: seq<Event>, e: Event)
    requires Legal(s, es) && Enabled(Run(s, es), e)
    ensures Legal(s, es + [e]) && Run(s, es + [e]) == Step(Run(s, es), e)
    decreases |es|
  {
    if es == [] {
      assert [] + [e] == [e] && [e][1..] == [];
      assert Legal(Step(s, e), []);
    } else {
      assert (es + [e])[1..] == es[1..] + [e] && (es + [e])[0] == es[0];
      AppendOne(Step(s, es[0]), es[1..], e);
    }
  }

  lemma PrependOne(s: State, e: Event, es: seq<Event>)
    requires Enabled(s, e) && Legal(Step(s, e), es)
    ensures Legal(s, [e] + es) && Run(s, [e] + es) == Run(Step(s, e), es)
  {
    assert ([e] + es)[1..] == es;
  }
}
