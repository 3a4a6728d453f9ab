/**
 * The services through which a processor starts asynchronous operations, as the
 * classes of `src/timerservice.cpp`, `src/timerprovider.cpp`,
 * `src/asiodispatcherservice.cpp`, `src/taskcontext.cpp`, `src/clientservice.cpp`
 * and `src/responsecontext.cpp`. Methods that call back into the application are
 * split at that call.
 *
 * Every method takes a state `s` of `Suspension` that its object is tied to, and
 * leaves the object tied to what the same operation makes of `s`.
 */
module Services {
  import opened Options
  import opened ProcessorQueue
  import opened Timers
  import S = Suspension

  /** How often queue `q` was launched. */
  function LaunchesOf(log: seq<S.Entry>, q: nat): nat {
    if log == [] then 0
    else LaunchesOf(log[..|log| - 1], q)
         + if log[|log| - 1].Launched? && log[|log| - 1].queue == q then 1 else 0
  }

  lemma LaunchesSnoc(log: seq<S.Entry>, e: S.Entry, q: nat)
    ensures LaunchesOf(log + [e], q) == LaunchesOf(log, q) + if e.Launched? && e.queue == q then 1 else 0
  {
    assert (log + [e])[..|log|] == log;
  }

  /** The object is queue `q` of `s`, which still exists. */
  ghost predicate QueueTied(queue: RequestProcessorQueue, s: S.State, q: nat)
    reads queue
  {
    && S.Current(s, Some(q))
    && queue.stopped == s.queues[q].stopped && queue.launches == LaunchesOf(s.log, q)
  }

  /** The same for an optional reference. */
  ghost predicate ReferenceTied(queue: RequestProcessorQueue?, s: S.State, q: Option<nat>)
    reads queue
  {
    if queue == null then q == None else q.Some? && QueueTied(queue, s, q.value)
  }

  lemma StopTied(s: S.State, q: nat, cause: S.Cause)
    requires S.Current(s, Some(q))
    ensures var t := S.Stop(s, Some(q), cause);
            S.Current(t, Some(q)) && t.queues[q].stopped && t.log == s.log
  {
  }

  lemma LaunchTied(s: S.State, q: nat, cause: S.Cause)
    requires S.Current(s, Some(q))
    ensures var t := S.Launch(s, Some(q), cause);
            && S.Current(t, Some(q)) && !t.queues[q].stopped
            && LaunchesOf(t.log, q) == LaunchesOf(s.log, q) + 1
  {
    LaunchesSnoc(s.log, S.Launched(q, cause), q);
  }

  // ---------------------------------------------------------------------------
  // Timers
  // ---------------------------------------------------------------------------

  /** A timer and the queue it was created for, if any. */
  class TimerService {
    const requestProcessorQueue: RequestProcessorQueue?
    var waits: seq<Wait>

    /** This is timer `t` of `s`. */
    ghost predicate Tied(s: S.State, t: nat)
      reads this, requestProcessorQueue
    {
      && t < |s.timers| && s.timers[t].waits == waits
      && ReferenceTied(requestProcessorQueue, s, s.timers[t].queue)
    }

    constructor (queue: RequestProcessorQueue?)
      ensures requestProcessorQueue == queue && waits == []
    {
      requestProcessorQueue, waits := queue, [];
    }

    /** `start` and `startPeriodic`: stop the queue, then arm. */
    method Start(periodic: bool, serial: nat, ghost s: S.State, ghost t: nat)
      requires Tied(s, t) && serial == s.serial
      modifies this, requestProcessorQueue
      ensures Tied(S.TimerStart(s, t, periodic), t)
    {
      if requestProcessorQueue != null {
        StopTied(s, s.timers[t].queue.value, S.ByTimer(t, s.serial));
        requestProcessorQueue.Stop();
      }
      waits := Arm(waits, periodic, serial);
    }

    /** `cause` only labels the launch. */
    method Stop(ghost s: S.State, ghost t: nat, ghost cause: S.Cause)
      requires Tied(s, t)
      modifies this, requestProcessorQueue
      ensures Tied(S.TimerStop(s, t, cause), t)
    {
      waits := CancelAll(waits);
      if requestProcessorQueue != null {
        ghost var u := s.(timers := s.timers[t := s.timers[t].(waits := waits)]);
        LaunchTied(u, s.timers[t].queue.value, cause);
        requestProcessorQueue.Launch();
      }
    }

    /** The handler of wait `i` begins: a cancelled wait returns at once, another runs its callback. */
    method Begin(i: nat, ghost s: S.State, ghost t: nat) returns (callback: bool)
      requires Tied(s, t) && S.Enabled(s, S.Dispatch(t, i))
      modifies this`waits
      ensures Tied(S.Step(s, S.Dispatch(t, i)), t)
      ensures callback <==> S.Step(s, S.Dispatch(t, i)).stack != s.stack
    {
      callback := waits[i].phase == Expired;
      waits := Take(waits, i);
      if callback && requestProcessorQueue != null {
        LaunchesSnoc(s.log, S.CallbackRun(t, s.timers[t].waits[i].serial), s.timers[t].queue.value);
      }
    }

    /** The handler ends, after its callback: a one-shot timer stops itself, a periodic one starts again. */
    method End(periodic: bool, serial: nat, ghost s: S.State, ghost t: nat)
      requires S.Enabled(s, S.Return) && s.stack[0].TimerCallback? && s.stack[0].timer == t
      requires Tied(s, t) && periodic == s.stack[0].periodic && serial == s.serial
      modifies this, requestProcessorQueue
      ensures Tied(S.Step(s, S.Return), t)
    {
      ghost var popped := s.(stack := s.stack[1..]);
      if periodic {
        Start(true, serial, popped, t);
      } else {
        Stop(popped, t, S.ByTimer(t, s.stack[0].serial));
      }
    }
  }

  class TimerProvider {
    var timers: seq<TimerService>
    var requestProcessorQueue: RequestProcessorQueue?

    constructor ()
      ensures timers == [] && requestProcessorQueue == null
    {
      timers, requestProcessorQueue := [], null;
    }

    method SetRequestProcessorQueue(queue: RequestProcessorQueue)
      modifies this`requestProcessorQueue
      ensures requestProcessorQueue == queue
    {
      requestProcessorQueue := queue;
    }

    /** A new timer is bound to the queue of the moment, for good. */
    method EmplaceTimer(ghost s: S.State, ghost queue: Option<nat>, ghost owner: S.Owner) returns (timer: TimerService)
      requires ReferenceTied(requestProcessorQueue, s, queue)
      modifies this`timers
      ensures fresh(timer) && timer.Tied(S.EmplaceTimer(s, queue, owner), |s.timers|)
      ensures timer.requestProcessorQueue == requestProcessorQueue
      ensures timers == old(timers) + [timer]
    {
      timer := new TimerService(requestProcessorQueue);
      timers := timers + [timer];
    }
  }

  // ---------------------------------------------------------------------------
  // Tasks
  // ---------------------------------------------------------------------------

  /** The shared_ptr by which a response context owns its queue. */
  class SharedQueue {
    const queue: RequestProcessorQueue
    var owners: nat

    constructor (queue: RequestProcessorQueue)
      ensures this.queue == queue && owners == 1
    {
      this.queue, owners := queue, 1;
    }
  }

  /** The weak_ptr `shared` observes queue `q` of `s`: it can be locked as long as that is the current one. */
  ghost predicate ObserverTied(shared: SharedQueue?, s: S.State, q: Option<nat>)
    reads shared, if shared == null then {} else {shared.queue}
  {
    if shared == null then q == None
    else
      && q.Some? && (shared.owners > 0 <==> S.Current(s, q))
      && (shared.owners > 0 ==> QueueTied(shared.queue, s, q.value))
  }

  /** The action that the copies of one TaskContext share. */
  class PostAction {
    const queueObserver: SharedQueue?   // a weak_ptr
    var owners: nat

    /** The copies of this belong to the contexts of task `j` of `s`. */
    ghost predicate Tied(s: S.State, j: nat)
      reads this, queueObserver, if queueObserver == null then {} else {queueObserver.queue}
    {
      && j < |s.tasks| && owners == s.tasks[j].spare + (if s.tasks[j].phase == S.Finished then 0 else 1)
      && ObserverTied(queueObserver, s, s.tasks[j].queue)
    }

    constructor (queueObserver: SharedQueue?)
      ensures this.queueObserver == queueObserver && owners == 1
    {
      this.queueObserver, owners := queueObserver, 1;
    }

    method Copy(ghost s: S.State, ghost j: nat)
      requires Tied(s, j) && S.Enabled(s, S.CopyContext(j))
      modifies this`owners
      ensures Tied(S.Step(s, S.CopyContext(j)), j)
    {
      owners := owners + 1;
    }

    /**
     * Destroys one copy: one that the application kept, or the one of the posted
     * lambda, which has returned. The last one launches the queue, if that is still there.
     */
    method Drop(ghost s: S.State, ghost j: nat, ghost e: S.Event)
      requires Tied(s, j) && S.Enabled(s, e)
      requires e == S.DropContext(j)
            || (e == S.Return && s.stack[0] == S.TaskCallback(j) && s.tasks[j].phase == S.Running)
      modifies this`owners, if queueObserver == null then {} else {queueObserver.queue}
      ensures Tied(S.Step(s, e), j)
    {
      owners := owners - 1;
      ghost var task := s.tasks[j];
      ghost var after := if e == S.Return then task.(phase := S.Finished) else task.(spare := task.spare - 1);
      ghost var dropped := s.(tasks := s.tasks[j := after], stack := if e == S.Return then s.stack[1..] else s.stack);
      assert S.Step(s, e) == if owners == 0 then S.FinishTask(dropped, j) else dropped;
      if owners == 0 && queueObserver != null && queueObserver.owners > 0 {
        LaunchTied(dropped, task.queue.value, S.ByTask(j));
        queueObserver.queue.Launch();
      }
    }
  }

  class AsioDispatcherService {
    var requestProcessorQueue: SharedQueue?   // a weak_ptr

    ghost predicate Tied(s: S.State)
      reads this, requestProcessorQueue, if requestProcessorQueue == null then {} else {requestProcessorQueue.queue}
    {
      ObserverTied(requestProcessorQueue, s, s.dispatcherQueue)
    }

    constructor ()
      ensures requestProcessorQueue == null
    {
      requestProcessorQueue := null;
    }

    method SetRequestProcessorQueue(queue: SharedQueue)
      modifies this
      ensures requestProcessorQueue == queue
    {
      requestProcessorQueue := queue;
    }

    /** Stops the queue and returns the context that the posted lambda keeps. */
    method PostTask(ghost s: S.State) returns (context: PostAction)
      requires Tied(s)
      modifies if requestProcessorQueue == null then {} else {requestProcessorQueue.queue}
      ensures Tied(S.PostTask(s))
      ensures fresh(context) && context.Tied(S.PostTask(s), |s.tasks|)
    {
      if requestProcessorQueue != null && requestProcessorQueue.owners > 0 {
        StopTied(s, s.dispatcherQueue.value, S.ByTask(|s.tasks|));
        requestProcessorQueue.queue.Stop();
      }
      context := new PostAction(requestProcessorQueue);
    }
  }

  // ---------------------------------------------------------------------------
  // Client requests
  // ---------------------------------------------------------------------------

  /** The function shared by the timeout of a request and its connection; it is empty or cancels the request. */
  class CancelRequestOnTimeout {
    var cancels: bool

    /** This belongs to request `r` of `s`. */
    ghost predicate Tied(s: S.State, r: nat)
      reads this
    {
      r < |s.requests| && s.requests[r].timer < |s.timers| && s.requests[r].cancels == cancels
    }

    constructor ()
      ensures !cancels
    {
      cancels := false;
    }

    /** The callback of the timeout timer: it cancels a request that is not answered yet, or does nothing. */
    method Call(ghost s: S.State, ghost r: nat) returns (cancelled: bool)
      requires Tied(s, r) && S.TimingOut(s, r)
      ensures S.Enabled(s, S.Respond(r))
              <==> cancelled && (s.requests[r].phase == S.Connecting || s.requests[r].phase == S.Accepted)
    {
      cancelled := cancels;
    }
  }

  /** A connection made for one request, up to the point where it is connected. */
  class RequestConnection {
    const cancelRequestOnTimeout: CancelRequestOnTimeout

    constructor (cancelRequestOnTimeout: CancelRequestOnTimeout)
      ensures this.cancelRequestOnTimeout == cancelRequestOnTimeout
    {
      this.cancelRequestOnTimeout := cancelRequestOnTimeout;
    }

    /**
     * The handler of `async_connect`; `accepted` is what `sendRequest` says. It
     * makes the request cancellable, or calls the response handler at once.
     */
    method OnConnected(error: bool, accepted: bool, ghost s: S.State, ghost r: nat) returns (respond: bool)
      requires cancelRequestOnTimeout.Tied(s, r) && S.Enabled(s, S.Connected(r, error, accepted))
      modifies cancelRequestOnTimeout
      ensures cancelRequestOnTimeout.Tied(S.Step(s, S.Connected(r, error, accepted)), r)
      ensures respond <==> S.Step(s, S.Connected(r, error, accepted)) == S.BeginResponse(s, r)
    {
      BeginsResponse(s, r);
      if error {
        return true;
      }
      if accepted {
        cancelRequestOnTimeout.cancels := true;
        return false;
      }
      return true;
    }
  }

  lemma BeginsResponse(s: S.State, r: nat)
    requires r < |s.requests| && s.requests[r].timer < |s.timers|
    ensures S.BeginResponse(s, r).requests == s.requests[r := s.requests[r].(phase := S.Answering)]
    ensures |S.BeginResponse(s, r).timers| == |s.timers|
  {
  }

  /** The response handler is called without any launch. */
  lemma ResponseFrame(s: S.State, r: nat, queue: Option<nat>)
    requires r < |s.requests| && s.requests[r].timer < |s.timers| && s.timers[s.requests[r].timer].queue == None
    ensures var t, i := S.BeginResponse(s, r), s.requests[r].timer;
            && t.queues == s.queues && t.clientQueue == s.clientQueue && t.privateQueue == s.privateQueue
            && t.timers == s.timers[i := s.timers[i].(waits := CancelAll(s.timers[i].waits))]
            && (queue.Some? ==> LaunchesOf(t.log, queue.value) == LaunchesOf(s.log, queue.value))
  {
    if queue.Some? {
      LaunchesSnoc(s.log, S.TimeoutStopped(r), queue.value);
      LaunchesSnoc(s.log + [S.TimeoutStopped(r)], S.HandlerRun(r), queue.value);
      assert s.log + [S.TimeoutStopped(r)] + [S.HandlerRun(r)] == s.log + [S.TimeoutStopped(r), S.HandlerRun(r)];
    }
  }

  class ClientService {
    const timerProvider: TimerProvider
    var clientConnections: seq<RequestConnection>
    var requestProcessorQueue: RequestProcessorQueue?

    /** The private provider has no queue, and none is ever set. */
    ghost predicate Tied(s: S.State)
      reads this, timerProvider, requestProcessorQueue
    {
      && ReferenceTied(requestProcessorQueue, s, s.clientQueue)
      && timerProvider.requestProcessorQueue == null && s.privateQueue == None
    }

    constructor ()
      ensures fresh(timerProvider) && timerProvider.requestProcessorQueue == null && requestProcessorQueue == null
      ensures clientConnections == []
    {
      timerProvider := new TimerProvider();
      clientConnections, requestProcessorQueue := [], null;
    }

    method SetRequestProcessorQueue(queue: RequestProcessorQueue)
      modifies this`requestProcessorQueue
      ensures requestProcessorQueue == queue
    {
      requestProcessorQueue := queue;
    }

    /**
     * Stops the queue, starts the timeout timer of the new request, and makes a connection
     * that shares its cancel function.
     */
    method MakeRequest(serial: nat, ghost s: S.State) returns (timeout: TimerService, connection: RequestConnection)
      requires Tied(s) && serial == s.serial
      modifies this`clientConnections, timerProvider`timers, requestProcessorQueue
      ensures fresh(connection) && connection.cancelRequestOnTimeout.Tied(S.MakeRequest(s), |s.requests|)
      ensures clientConnections == old(clientConnections) + [connection]
      ensures Tied(S.MakeRequest(s)) && fresh(timeout) && timeout.Tied(S.MakeRequest(s), |s.timers|)
      ensures timeout.requestProcessorQueue == null && timerProvider.timers == old(timerProvider.timers) + [timeout]
    {
      ghost var r := |s.requests|;
      ghost var stopped := S.Stop(s, s.clientQueue, S.ByClient(r));
      if requestProcessorQueue != null {
        StopTied(s, s.clientQueue.value, S.ByClient(r));
        requestProcessorQueue.Stop();
      }
      var cancelRequestOnTimeout := new CancelRequestOnTimeout();
      timeout := timerProvider.EmplaceTimer(stopped, None, S.Timeout(r));
      ghost var made := S.EmplaceTimer(stopped, None, S.Timeout(r));
      ghost var requests := made.requests + [S.ClientRequest(S.Connecting, |s.timers|, false)];
      timeout.Start(false, serial, made.(requests := requests), |s.timers|);
      connection := new RequestConnection(cancelRequestOnTimeout);
      clientConnections := clientConnections + [connection];
    }

    /** `onResponseReceived` up to the response handler: no queue is launched. */
    method BeginResponse(timeout: TimerService, ghost s: S.State, ghost r: nat)
      requires Tied(s) && r < |s.requests| && timeout.Tied(s, s.requests[r].timer)
      requires timeout.requestProcessorQueue == null
      modifies timeout
      ensures Tied(S.BeginResponse(s, r)) && timeout.Tied(S.BeginResponse(s, r), s.requests[r].timer)
    {
      ghost var t := s.requests[r].timer;
      ResponseFrame(s, r, s.clientQueue);
      timeout.Stop(s, t, S.ByTimerStop(t));
    }

    /** The rest of `onResponseReceived`: the queue of the moment is launched once. */
    method EndResponse(ghost s: S.State, ghost r: nat)
      requires Tied(s) && S.Enabled(s, S.Return) && s.stack[0] == S.ClientCallback(r)
      modifies requestProcessorQueue
      ensures Tied(S.Step(s, S.Return))
    {
      if requestProcessorQueue != null {
        ghost var done := s.(stack := s.stack[1..], requests := s.requests[r := s.requests[r].(phase := S.Done)]);
        LaunchTied(done, s.clientQueue.value, S.ByClient(r));
        requestProcessorQueue.Launch();
      }
    }
  }

  // ---------------------------------------------------------------------------
  // The queue of a new request
  // ---------------------------------------------------------------------------

  class ResponseContext {
    const timerProvider: TimerProvider
    const client: ClientService
    const asioDispatcher: AsioDispatcherService
    var requestProcessorQueue: SharedQueue?

    constructor (timerProvider: TimerProvider, client: ClientService, asioDispatcher: AsioDispatcherService)
      ensures this.timerProvider == timerProvider && this.client == client && this.asioDispatcher == asioDispatcher
      ensures requestProcessorQueue == null
    {
      this.timerProvider, this.client, this.asioDispatcher := timerProvider, client, asioDispatcher;
      requestProcessorQueue := null;
    }

    /**
     * Gives the queue to all services of the connection, but not to the timer
     * provider of the client service. A queue that the context owned before is released.
     */
    method SetRequestProcessorQueue(shared: SharedQueue, ghost s: S.State, ghost q: nat)
      requires QueueTied(shared.queue, s, q) && shared.owners > 0
      requires requestProcessorQueue != null ==> requestProcessorQueue.owners > 0
      requires client.timerProvider != timerProvider
      requires client.timerProvider.requestProcessorQueue == null && s.privateQueue == None
      modifies this`requestProcessorQueue, shared`owners
      modifies if requestProcessorQueue == null then {} else {requestProcessorQueue}
      modifies client`requestProcessorQueue, asioDispatcher, timerProvider`requestProcessorQueue
      ensures requestProcessorQueue == shared
      ensures shared.owners == old(shared.owners) + if old(requestProcessorQueue) == shared then 0 else 1
      ensures var before := old(requestProcessorQueue);
              before != null && before != shared ==> before.owners == old(before.owners) - 1
      ensures var t := S.SetQueue(s, Some(q));
              && client.Tied(t) && asioDispatcher.Tied(t)
              && ReferenceTied(timerProvider.requestProcessorQueue, t, t.providerQueue)
    {
      shared.owners := shared.owners + 1;
      if requestProcessorQueue != null {
        requestProcessorQueue.owners := requestProcessorQueue.owners - 1;
      }
      requestProcessorQueue := shared;
      client.SetRequestProcessorQueue(shared.queue);
      asioDispatcher.SetRequestProcessorQueue(shared);
      timerProvider.SetRequestProcessorQueue(shared.queue);
    }
  }
}
