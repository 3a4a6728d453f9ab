# A Dafny model of asyncgi's event-driven core

asyncgi serves FastCGI requests from handlers that run one at a time on an asio
`io_context`. This project models the state machines that it owns in between, and
proves properties of all their runs.

**The buffered connection engine** (`Engine`, `EngineInvariant`, `EngineRuns`,
`Fifo`, `Closing`, `IoErrors`, `Connection`, `ClientConnection`). Both connection
classes write through two buffers, defer `disconnect` until everything is drained, and
re-arm their read from its own handler. A run is any sequence of library calls, partial
transfers, completions, failures and arriving chunks. An outstanding `async_write`
is a length and a progress only: what it puts on the wire is read from
`writeBuffer_` as it is at that moment, so that the buffer is not overwritten under
a write is a theorem and not part of the model. Zero-length writes are included;
they may overlap each other and a write with bytes. The two classes carry a ghost
copy of the engine's state, and every handler of theirs is one step of the engine.

**Who answers a request** (`RequestHandling`). Contexts are counted references,
all leading to one sender slot that each request refills. The result is compared
with what an observer expects who knows only which sends were made for which request.

**Suspending and resuming the processing of a request** (`Queue`, `Timers`,
`Services`, `Suspension`, `SuspensionInvariant`, `Resumption`, `Stories`,
`TimerRuns`, `StoppedTimers`, `Timeouts`, `GoneQueues`, `NonOverlap`, `Resuming`,
`Overlap`, `Rearming`, `Processors`). Timers, posted tasks and client requests stop the queue
of request processors, and their ends launch it again. A run includes the call
stack: launched queues call processors, callbacks return into handlers, a response
may arrive inside the timeout callback that cancels it. The classes of `Services` are
tied to a state of that machine, and each operation of theirs does to their fields and
to the flag of the queue what the machine's operation does.

**Sharing out connections** (`RoundRobin`, `Listener`). The round robin over the
contexts with a counter that wraps around, and the accept loop.

## Assumptions

- asio: handlers of one connection do not run concurrently; `async_write` hands over
  the bytes of its buffer in order and succeeds only with all of them; nothing is
  moved on a closed socket; `cancel` and `expires_after` make armed waits complete
  with an error and leave expired ones alone.
- `RequestProcessorQueue` is not part of this model's sources: `stop` raises a flag;
  `launch` clears it and runs the remaining processors until the flag is raised or
  the request is answered.
- FastCGI library: a response object is valid until its first `send`; `processRequest`
  is not entered again while it runs; the handler of an accepted client request is
  called at most once, from a socket handler or from within `cancelRequest`, and a
  rejected request does not call it.
- Strings stay below the range of `std::size_t`.
- Every request goes through a router; no exception leaves a processor that runs
  later than `processRequest`; `makeRequest` does not throw.

## Findings

- **Stopping a timer.** After `stop` a timer can still call back exactly if one of its
  waits has expired undispatched or a periodic callback of it is running
  (`StoppedTimers.StopEndsTheTimerExactly`). Both cases are reached:
  `StoppedTimers.StopAfterExpiry`, `StoppedTimers.StopInPeriodicCallback`.
- **Timeouts.** An expired timeout can end its request exactly if the request has been
  accepted and is unanswered; while the request is still connecting the function that
  the timeout calls is empty, and the timer never fires again
  (`Timeouts.TimeoutEndsExactlyAcceptedRequests`, reached by
  `Timeouts.TimeoutCanExpireEarly`).
- **Two operations.** While the queue waits for an operation, the application starts
  another one. Then a processor can begin while an operation is owed, exactly unless the
  second replaces the armed wait that is the first, or both are periodic timers
  (`Overlap.TwoOperationsOverlapExactly`, reached by `Overlap.SecondTaskCanStart`). The
  same can follow from stopping a timer by hand and from a client request that outlives
  its request (`Overlap.StopTimerOverlaps`, `Overlap.LateResponseOverlaps`).
- **Periodic timers.** A stopped queue can be resumed without the application's help
  exactly if something is owed to it that is not a periodic timer
  (`Resuming.ResumesExactly`; `Resuming.PeriodicTimerAlone` is a run to the other case).
- **Futures.** `waitFuture` stops its timer inside the periodic callback of that timer.
  This is always undone: the return of the callback arms the timer and stops the queue
  again, and the callback can run again (`Rearming.OwnStopIsUndone`).
- **Queues that are gone.** A timer keeps a plain reference to the queue of the request
  in which it was made, and the next request destroys that queue. If the application
  leaves such timers alone, one of them still uses the destroyed queue in some run
  exactly if it has a wait that is armed or has expired when the request comes in
  (`GoneQueues.GoneQueueUsedExactly`, reached by `GoneQueues.TimerOutlivesItsRequest`).
  In the model these steps have no effect; what happens in the program is undefined.
- **Failed client writes.** An open client connection can still be closed exactly if no
  non-empty write of it has failed (`Closing.ClientCanCloseExactly`, reached by
  `Closing.ClientWriteFails`); only its destruction closes it then.
- **Round robin.** It stays balanced for ever exactly if the pool size divides the range
  of the counter (`RoundRobin.BalancedExactlyWhenDivides`).

## Model

| member | source | states |
|---|---|---|
| EngineRuns.StreamPreservation | src/connection.cpp:70-110 | In every reachable state of either connection class, wire, bytes in flight (or lost by the failed write) and next buffer make up exactly what was sent; the wire is a prefix of it, and all of it when no write is outstanding and none failed |
| EngineRuns.WireOnlyGrows | src/connection.cpp:70-97 | Bytes on the wire are never taken back |
| EngineRuns.FailStop | src/clientconnection.cpp:97-136 | After a non-empty write has failed no byte reaches the wire and no write is started, whatever follows, for both classes |
| EngineRuns.FailureBegins | src/connection.cpp:88-96 | The stream fails exactly in the error handler of a write that carries bytes |
| EngineRuns.SingleWriterInEveryRun | src/connection.cpp:72-104 | At most one outstanding write carries bytes; what it hands over is what it was asked to send although it only points into the buffer; the next buffer is used only while bytes are counted; no completion wraps the counter |
| EngineInvariant.NoUnderflow | src/connection.cpp:102-102 | The subtraction in onBytesWritten empties the counter or subtracts zero |
| EngineInvariant.InvStep | src/connection.cpp:45-153 | Every call and handler keeps the engine's invariant |
| EngineRuns.NoMoreWritesThanSends | src/connection.cpp:72-107 | In every run there are at most as many writes as calls of sendData |
| EngineRuns.SendsGather | src/connection.cpp:72-75 | While a write is out, everything sent is appended to the next buffer and no write starts |
| EngineRuns.SendsLeaveTogether | src/connection.cpp:100-107 | All sends made during one write leave in exactly one write, started when it completes |
| EngineRuns.ReadLoop | src/connection.cpp:45-67 | At most one read is out; receiveData is given exactly the bytes read, in order; while it consumes a chunk no read is out and no step changes the buffer |
| IoErrors.KeepsReading | src/connection.cpp:45-67 | In every run without a failed read, a server connection has exactly one read outstanding or its chunk being consumed, and so has a client connection whose socket is open |
| IoErrors.ReadingServerStaysAlive | src/connection.cpp:45-67 | A server connection whose reads have not failed is never released |
| IoErrors.ServerWriteErrorCloses | src/connection.cpp:88-94 | In every run, a failed write closes a server connection, also one without bytes |
| IoErrors.ServerReadErrorClosesExactly | src/connection.cpp:49-57 | In every run, an open server connection is open after a failed read exactly if the read was aborted |
| IoErrors.FailedServerIsClosed | src/connection.cpp:88-94 | A server connection with a failed non-empty write is closed in every reachable state |
| IoErrors.ServerErrorEndsTraffic | src/connection.cpp:45-97 | After a failed write, or a failed read that was not aborted, no byte is sent or received on a server connection and it stays closed, whatever follows |
| IoErrors.ClosedMovesNothing | src/connection.cpp:143-153 | A closed connection of either kind stays closed and moves nothing |
| IoErrors.ClientErrorsCloseNothing | src/clientconnection.cpp:78-122 | On the client side no read or write error closes the socket or changes what is still to be sent |
| FifoRefinement.RefineStep | src/connection.cpp:70-119 | Each error-free step is zero, one or two allowed moves of a plain byte queue with a pending close |
| FifoRefinement.WriterRefinesQueue | src/clientconnection.cpp:63-136 | Every error-free run of either class is a run of that queue |
| Closing.ClosesOnlyWhenDrained | src/connection.cpp:100-119 | Unless an I/O error closes it, the socket closes only when everything sent is on the wire |
| Closing.ClosesAfterDueCompletions | src/connection.cpp:100-119 | After disconnect, without more sends or errors, the socket is closed exactly by the last due completion of a non-empty write, and at most two are due |
| Closing.FailedClientNeverCloses | src/clientconnection.cpp:115-136 | After a failed non-empty write an open client connection is never closed as long as the object lives, whatever follows |
| Closing.ClientCanCloseExactly | src/clientconnection.cpp:63-69 | An open client connection can be closed in some run exactly if no write of it has failed |
| Closing.ClientWriteFails | src/clientconnection.cpp:115-120 | A run to an open client connection whose write has failed |
| Closing.BoundedAfterClose | src/connection.cpp:45-97 | A closed connection stays closed, starts at most one more non-empty write and one more read (none on the client side), and runs at most as many handlers as were due plus one per further send |
| Closing.SomeHandlerIsDue | src/connection.cpp:49-59 | Whatever is outstanding on a closed connection has a handler that can run |
| Closing.ReleasedWhenNothingIsDue | src/connection.cpp:45-97 | A server connection is released exactly when no handler of it is outstanding or running, and then nothing can call into it |
| Closing.ReleasedAfterClose | src/connection.cpp:45-97 | A closed server connection on which no handler can run is released |
| ServerConnection.Connection.constructor | src/connection.cpp:21-33 | The initial state, after the first read was started |
| ServerConnection.Connection.SendData | src/connection.cpp:70-97 | sendData is the engine's SendData on the fields |
| ServerConnection.Connection.OnBytesWritten | src/connection.cpp:100-110 | onBytesWritten flushes the next buffer or carries out a pending close |
| ServerConnection.Connection.Disconnect | src/connection.cpp:113-119 | disconnect closes at once only when no bytes are counted |
| ServerConnection.Connection.Close | src/connection.cpp:144-153 | close closes the socket and clears the request to disconnect |
| ServerConnection.Connection.WriteHandler | src/connection.cpp:88-96 | The completion handler of a write is one step of the engine and keeps its invariant |
| ServerConnection.Connection.ReadHandler | src/connection.cpp:49-66 | The read handler passes on exactly the bytes that arrived |
| ServerConnection.Connection.ReadHandlerEnd | src/connection.cpp:63-67 | After receiveData the read is re-armed |
| ServerConnection.Connection.ReadErrorHandler | src/connection.cpp:51-57 | A failed read closes the socket unless it was aborted |
| ClientSideConnection.ClientConnection.SendData | src/clientconnection.cpp:97-123 | The client's sendData is the same function of the fields |
| ClientSideConnection.ClientConnection.OnBytesWritten | src/clientconnection.cpp:126-136 | The client's onBytesWritten is the same function of the fields |
| ClientSideConnection.ClientConnection.Disconnect | src/clientconnection.cpp:63-69 | The client's disconnect is the same function of the fields |
| ClientSideConnection.ClientConnection.Close | src/clientconnection.cpp:139-148 | The client's close is the same function of the fields |
| ClientSideConnection.ClientConnection.ProcessReading | src/clientconnection.cpp:72-87 | A read is started only while the socket is open |
| ClientSideConnection.ClientConnection.WriteHandler | src/clientconnection.cpp:115-122 | A failed write is reported only: the socket stays open and the counter up |
| ClientSideConnection.ClientConnection.ReadHandler | src/clientconnection.cpp:78-94 | The read handler passes on exactly the bytes that arrived |
| ClientSideConnection.ClientConnection.ReadErrorHandler | src/clientconnection.cpp:80-84 | A failed read is reported only |
| RequestHandling.AnsweredByItsFirstSend | src/response.cpp:25-43 | In every run a request is answered by exactly the first send made for it while it is current, and by no send through the responder of another request, although all use one slot |
| RequestHandling.ExactlyOneReply | src/connection.cpp:128-140 | When a processor returns a value or throws, exactly one reply has been issued when processRequest returns, and no other one ever after; the first send wins, and a processor that throws without having sent anything is answered with status 500 and no error message |
| RequestHandling.SentMeansAnsweredOrOver | src/response.cpp:37-43 | isSent of a responder means that its request is answered or no longer current |
| RequestHandling.SentIsForEver | src/responsesender.cpp:15-28 | isSent never goes back to false |
| RequestHandling.SendStep | src/responsesender.cpp:15-23 | A send answers the request of its own responder if that is current and unanswered, and changes no other request's replies |
| RequestHandling.EnterStep | src/connection.cpp:124-127 | Entering processRequest cuts off every earlier responder at once |
| RequestHandling.Connection.Send | src/response.cpp:25-35 | send acts only while the context is owned and the slot's response is valid |
| RequestHandling.Connection.Sent | src/response.cpp:37-43 | isSent is true without a context |
| RequestHandling.Connection.HandleRequest | src/connection.cpp:122-141 | processRequest, with what the processor does, as a function of the fields |
| RequestHandling.LeaveStep | include/asyncgi/requestprocessor.h:46-75 | The value-returning form sends its value through the same responder, after any earlier send |
| Services.TimerService.Start | src/timerservice.cpp:21-50 | start stops the queue, cancels what is armed and arms one wait: the machine's step on the timer and its queue |
| Services.TimerService.Stop | src/timerservice.cpp:52-58 | stop cancels what is armed and launches the queue once |
| Services.TimerService.Begin | src/timerservice.cpp:29-30 | The handler of a cancelled wait does nothing |
| Services.TimerService.End | src/timerservice.cpp:31-49 | The rest of the handler, after the callback, is the machine's return from it |
| Services.TimerProvider.EmplaceTimer | src/timerprovider.cpp:17-20 | A timer is bound to the provider's queue of the moment |
| Services.PostAction.Copy | src/taskcontext.cpp:17-21 | Copies of a context share one action |
| Services.PostAction.Drop | src/taskcontext.cpp:11-15 | Only the destruction of the last copy, wherever it happens, launches the observed queue, and only if it still exists |
| Services.AsioDispatcherService.PostTask | src/asiodispatcherservice.cpp:17-34 | postTask stops the queue of the moment, and its context observes that queue |
| Services.ClientService.MakeRequest | src/clientservice.cpp:22-61 | makeRequest stops the queue, starts a timeout timer that has no queue, and makes a connection that shares an empty cancel function with it |
| Services.RequestConnection.OnConnected | src/clientconnection.cpp:40-59 | Only an accepted request fills in the cancel function; an error or a rejection calls the response handler at once |
| Services.CancelRequestOnTimeout.Call | src/clientservice.cpp:31-38 | The timeout leads to the response handler exactly if the cancel function is filled in and the request is unanswered |
| Services.ClientService.BeginResponse | src/clientservice.cpp:40-49 | The timeout timer is cancelled before the response handler, without a launch |
| Services.ClientService.EndResponse | src/clientservice.cpp:51-53 | After the response handler the queue of the moment is launched once |
| Services.ResponseContext.SetRequestProcessorQueue | src/responsecontext.cpp:40-46 | All services get the queue of a new request, the client service's own timer provider does not |
| Resumption.NoLostWakeup | src/timerservice.cpp:21-58 | Between handlers, whenever the current queue is stopped, the very operation that stopped it last is outstanding, for any mix of timers, tasks and client requests |
| Resumption.EveryResolutionLaunches | src/timerservice.cpp:21-58 | In every run, the step that ends the operation which stopped the queue launches the queue, on behalf of that operation or its timer, unless the timer is started again or re-arms itself and the queue waits for the new wait |
| Resumption.ResolutionLaunches | src/asiodispatcherservice.cpp:22-33 | The same from every state with the two invariants |
| GoneQueues.CarefulRunsAreSafe | src/timerprovider.cpp:17-20 | No queue is used after its end if the application leaves the timers of earlier requests alone and none of them is due when a request comes in |
| GoneQueues.GoneQueueUsedExactly | src/connection.cpp:124-129 | When a request comes in after such a run, a queue that is gone can be used during it exactly if a timer with a queue has a wait that is armed or has expired |
| GoneQueues.TimerOutlivesItsRequest | src/timerservice.cpp:21-34 | A run that reaches such a moment |
| SuspensionInvariant.StructureStep | src/responsecontext.cpp:40-46 | All services keep pointing to the queue of the current request, except the client service's own timer provider, which never gets one |
| Stories.ClientRequestLifecycle | src/clientservice.cpp:28-60 | However connecting, rejection, response and timeout interleave, a request stops its timeout timer, runs its handler and launches the queue, each once at most and in this order, and all of it exactly when it is done |
| Stories.ResponseLaunchesTheQueueOfTheMoment | src/clientservice.cpp:51-53 | The step that ends the handler launches the queue that is current then, and nothing more follows for this request |
| Timeouts.TimeoutIsDisarmed | src/clientservice.cpp:40-42 | While the response handler runs and ever after, the timeout timer is not armed |
| TimerRuns.TimeoutNeverLaunches | src/timerprovider.cpp:17-25 | The timeout timer adds no launch of any queue |
| Timeouts.TimeoutEndsExactlyAcceptedRequests | src/clientconnection.cpp:40-59 | In every run, an expired timeout can call the response handler of its request exactly if that is accepted and unanswered, and otherwise has no effect, then or later |
| Timeouts.TimeoutCanExpireEarly | src/clientservice.cpp:31-38 | A run in which the timeout expires while the request is connecting |
| Stories.TaskResumesItsQueueOnce | src/taskcontext.cpp:11-21 | For any copying and dropping of its context, a task launches the queue it was posted with once, when the last copy is destroyed, or not at all if that queue is gone, and never another queue |
| Stories.TaskEndsWithItsLastContext | src/taskcontext.cpp:11-21 | In every run a task ends exactly when its callback has returned and as many contexts have been dropped as were copied |
| Stories.PostedForItsRequest | src/asiodispatcherservice.cpp:22-28 | A task gets the queue of the request during which it is posted |
| Timeouts.TimerForItsRequest | src/timerprovider.cpp:17-20 | A timer is bound to the queue of the request during which it is made |
| Timeouts.RequestIsGuarded | src/clientservice.cpp:31-38 | A new client request has a timeout timer of its own, armed once and without a queue |
| TimerRuns.TimersInEveryRun | src/timerservice.cpp:21-58 | At most one wait per timer is armed, and each wait runs its callback once at most |
| TimerRuns.StopEndsTheTimer | src/timerservice.cpp:52-58 | After stop no callback runs until the next start, unless a wait had expired undispatched or a periodic callback was running |
| StoppedTimers.StopEndsTheTimerExactly | src/timerservice.cpp:36-58 | In every run, after stop the timer can call back without a new start exactly if a wait had expired undispatched or a periodic callback of it was running |
| StoppedTimers.StopAfterExpiry | src/timerservice.cpp:52-58 | A run to a stop with an expired wait |
| StoppedTimers.StopInPeriodicCallback | src/timerservice.cpp:43-50 | A run to a stop within a periodic callback |
| Rearming.EachPeriodicCallbackRearmsOnce | src/timerservice.cpp:42-49 | In every run, a timer is armed other than by a start exactly once for every periodic callback of it that has begun, but for the one that is running |
| Rearming.OwnStopIsUndone | include/asyncgi/timer.h:42-57 | When a periodic callback has stopped its own timer, its return leaves exactly one wait armed and the queue stopped by it, and the callback can run again without another start |
| NonOverlap.ProcessorsDoNotOverlap | include/asyncgi/router.h:61-71 | If processors start one operation each, callbacks start none, and a timer is started again or stopped only while the queue waits for its armed wait, then a processor begins only when no operation of the request is outstanding, no callback of one is running and no other processor is |
| Processors.ProcessorsBeginInOrder | include/asyncgi/router.h:61-71 | In every run the processors of each request begin in the order in which they match, each once, and none but those |
| Processors.LaunchGoesOnExactly | include/asyncgi/router.h:84-87 | A launched queue calls another processor exactly if it is not stopped, no reply has been made since the request came in and processors are left; otherwise the launch ends |
| Processors.NoProcessorAfterReply | include/asyncgi/router.h:84-87 | After a reply no processor of that request begins, whatever launches its queue |
| Processors.NewRequestLaunches | include/asyncgi/router.h:61-71 | A new request gets a queue of its own, which the services use from then on, and which is launched |
| Resuming.ResumesExactly | src/timerservice.cpp:36-50 | In every run, a stopped queue can be resumed without a start, a stop or a new request exactly if something is owed to it that is not a periodic timer |
| Resuming.PeriodicTimerAlone | src/timerservice.cpp:36-41 | A run to a queue that waits for a periodic timer only |
| Overlap.TwoOperationsOverlapExactly | src/timerservice.cpp:26-33 | After every disciplined run in which the queue waits for an operation and has more processors, starting another one anywhere lets a processor begin while an operation is owed, exactly unless it replaces the armed wait of the first or both are periodic |
| Overlap.SecondOperationOverlapsExactly | src/asiodispatcherservice.cpp:17-34 | The same from every orderly state |
| Overlap.SecondTaskCanStart | src/asiodispatcherservice.cpp:17-34 | A run to a processor that may post a second task |
| Overlap.ReturnCancelsExactlyArmedWaits | src/timerservice.cpp:26-33 | The return of a one-shot callback ends exactly those waits of its timer that are still armed |
| Overlap.StopTimerOverlaps | src/timerservice.cpp:52-58 | Stopping a timer while an operation is owed lets the next processor begin at once; the operation is owed still unless the stop cancels it |
| Overlap.LateResponseOverlaps | src/clientservice.cpp:51-53 | A client request that outlives its request resumes the next one while a task of that is pending |
| Overlap.EveryStartStopsTheQueue | src/timerservice.cpp:21-42 | In every run, each start of a timer, task or client request of the current request stops the queue, and from then on the operation is owed |
| RoundRobin.IOService.Create | src/ioservice.cpp:35-47 | A pool without a context cannot be made |
| RoundRobin.IOService.NextIO | src/ioservice.cpp:54-57 | The n-th call gives the context that the wrapped counter selects |
| RoundRobin.CountIsShares | src/ioservice.cpp:54-57 | How often each context is picked, in closed form |
| RoundRobin.FairAcrossWraps | src/ioservice.cpp:54-57 | After n calls two contexts differ by at most one per wrap of the counter and one more |
| RoundRobin.FairWithoutRemainder | src/ioservice.cpp:54-57 | They differ by at most one if the pool size divides the range of the counter |
| RoundRobin.BalancedExactlyWhenDivides | src/ioservice.cpp:54-57 | They differ by at most one for ever exactly in that case |
| Listener.ConnectionFactory.MakeConnection | src/connectionfactory.cpp:27-34 | Every connection takes the next context |
| Listener.ConnectionListener.WaitForConnection | src/connectionlistener.cpp:29-38 | A new connection is made and awaited |
| Listener.ConnectionListener.OnConnected | src/connectionlistener.cpp:41-49 | Every connection made is processed once, failed, or the single awaited one; after a failed accept none is awaited |

## Left out

- Error events: what is reported to the event handler, and the error of `close` itself.
- Router matching, 404 and parameter-error replies: any reply of application code is one step; route matching is not part of this model.
- FastCGI records, HTTP parsing, cookies and forms: the bytes sent and received are arbitrary.
- `Client::disconnect`, and the destruction of client connections and timers whose handlers hold a raw `this`.
- Resumption.NoLostWakeup: its runs include those in which a timer uses the queue of an earlier request, which is without effect here and undefined in the program; `GoneQueues.CarefulRunsAreSafe` describes the runs without such steps.
- Exceptions thrown by callbacks and by processors that a later `launch` runs.
- Resolving addresses, starting threads and handling signals: operating-system plumbing.
- The facades `Timer`, `Client`, `AsioDispatcher` and the service holder: forwarding only.
- Resumption.EveryResolutionLaunches: that the peer or the clock makes an outstanding operation end is not claimed.
- Stories.ResponseLaunchesTheQueueOfTheMoment: the launched queue need not be the one of the request that asked, which is how the code behaves.
- Services.PostAction.Drop: `launch` is counted here; the processors that it runs are steps of `Suspension`.
- Services.TimerService.Start: like the other service methods, it ties the object and the queue that it acts on; that all other objects sharing the queue stay tied is not stated.
