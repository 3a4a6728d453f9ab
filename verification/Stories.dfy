/** What happens to one task, one client request or one wait over a whole run, read off the log. */
module Stories {
  import opened Options
  import opened Timers
  import opened Suspension
  import opened SuspensionInvariant
  import opened Resumption

  datatype Topic = OfTimer(timer: nat) | OfTask(task: nat) | OfRequest(request: nat) | OfWait(t: nat, serial: nat)

  predicate About(e: Entry, topic: Topic) {
    match topic
    case OfTimer(t) =>
      e.Launched? && (match e.cause case ByTimer(u, _) => u == t case ByTimerStop(u) => u == t case _ => false)
    case OfTask(j) => e.Launched? && e.cause == ByTask(j)
    case OfRequest(r) => e == TimeoutStopped(r) || e == HandlerRun(r) || (e.Launched? && e.cause == ByClient(r))
    case OfWait(t, n) => e == CallbackRun(t, n)
  }

  /** The entries of the log about `topic`, in order. */
  function Story(log: seq<Entry>, topic: Topic): seq<Entry> {
    if log == [] then [] else (if About(log[0], topic) then [log[0]] else []) + Story(log[1..], topic)
  }

  lemma {:induction false} StoryConcat(a: seq<Entry>, b: seq<Entry>, topic: Topic)
    ensures Story(a + b, topic) == Story(a, topic) + Story(b, topic)
  {
    if a == [] {
      assert a + b == b;
    } else {
      StoryConcat(a[1..], b, topic);
      assert (a + b)[1..] == a[1..] + b;
    }
  }

  lemma StoryPair(a: Entry, b: Entry, topic: Topic)
    ensures Story([a, b], topic) == (if About(a, topic) then [a] else []) + if About(b, topic) then [b] else []
  {
    assert [a, b][1..] == [b];
    assert Story([b], topic) == if About(b, topic) then [b] else [];
  }

  function LaunchEntry(s: State, queue: Option<nat>, cause: Cause): seq<Entry> {
    if Current(s, queue) then [Launched(queue.value, cause)] else []
  }

  /** What a step adds to the log. */
  function Added(s: State, e: Event): seq<Entry>
    requires Enabled(s, e)
  {
    match e
    case NewRequest(_) => [Launched(|s.queues|, ByRouter)]
    case Return =>
      (match s.stack[0]
       case TimerCallback(t, n, periodic) => if periodic then [] else LaunchEntry(s, s.timers[t].queue, ByTimer(t, n))
       case TaskCallback(j) => if s.tasks[j].spare == 0 then LaunchEntry(s, s.tasks[j].queue, ByTask(j)) else []
       case ClientCallback(r) => LaunchEntry(s, s.clientQueue, ByClient(r))
       case _ => [])
    case StopTimer(t) => LaunchEntry(s, s.timers[t].queue, ByTimerStop(t))
    case DropContext(j) =>
      if s.tasks[j].spare == 1 && s.tasks[j].phase == Finished then LaunchEntry(s, s.tasks[j].queue, ByTask(j)) else []
    case Dispatch(t, i) =>
      if s.timers[t].waits[i].phase == Expired then [CallbackRun(t, s.timers[t].waits[i].serial)] else []
    case Connected(r, error, accepted) => if error || !accepted then [TimeoutStopped(r), HandlerRun(r)] else []
    case Respond(r) => [TimeoutStopped(r), HandlerRun(r)]
    case _ => []
  }

  lemma LogOfReturn(s: State)
    requires Enabled(s, Return)
    ensures Step(s, Return).log == s.log + Added(s, Return)
  {
  }

  lemma LogOfResponse(s: State, e: Event)
    requires Structure(s) && Enabled(s, e) && (e.Connected? || e.Respond?)
    ensures Step(s, e).log == s.log + Added(s, e)
  {
    assert TimerOk(s.timers[s.requests[e.r].timer], s.serial, |s.queues|);
  }

  lemma LogStep(s: State, e: Event)
    requires Structure(s) && Enabled(s, e)
    ensures Step(s, e).log == s.log + Added(s, e)
  {
    if e == Return {
      LogOfReturn(s);
    } else if e.Connected? || e.Respond? {
      LogOfResponse(s, e);
    }
  }

  // ---------------------------------------------------------------------------
  // Client requests
  // ---------------------------------------------------------------------------

  function PhaseOf(s: State, r: nat): Option<RequestPhase> {
    if r < |s.requests| then Some(s.requests[r].phase) else None
  }

  /** The story of a request in the given phase, or not made yet. */
  predicate Fits(story: seq<Entry>, r: nat, phase: Option<RequestPhase>) {
    match phase
    case None => story == []
    case Some(Connecting) => story == []
    case Some(Accepted) => story == []
    case Some(Answering) => story == [TimeoutStopped(r), HandlerRun(r)]
    case Some(Done) =>
      |story| == 3 && story[0] == TimeoutStopped(r) && story[1] == HandlerRun(r)
      && story[2].Launched? && story[2].cause == ByClient(r)
  }

  /** The step calls the response handler of request `r`. */
  predicate Answers(e: Event, r: nat) {
    e == Respond(r) || (e.Connected? && e.r == r && (e.error || !e.accepted))
  }

  predicate EndsResponse(s: State, e: Event, r: nat) {
    e == Return && s.stack != [] && s.stack[0] == ClientCallback(r)
  }

  /** How the phase of request `r` may change in a step. */
  predicate PhaseMoves(s: State, e: Event, r: nat)
    requires Enabled(s, e)
  {
    var before, after := PhaseOf(s, r), PhaseOf(Step(s, e), r);
    if Answers(e, r) then (before == Some(Connecting) || before == Some(Accepted)) && after == Some(Answering)
    else if EndsResponse(s, e, r) then before == Some(Answering) && after == Some(Done)
    else
      || after == before
      || (before == Some(Connecting) && after == Some(Accepted))
      || (before == None && after == Some(Connecting))
  }

  lemma PhaseOfReturn(s: State, r: nat)
    requires Structure(s) && Enabled(s, Return)
    ensures PhaseMoves(s, Return, r)
  {
    assert s.stack[0] in s.stack;
  }

  lemma PhaseOfResponse(s: State, e: Event, r: nat)
    requires Enabled(s, e) && (e.Connected? || e.Respond?)
    ensures PhaseMoves(s, e, r)
  {
  }

  lemma PhaseOfRequest(s: State, r: nat)
    requires Enabled(s, Request)
    ensures PhaseMoves(s, Request, r)
  {
    assert Step(s, Request).requests == s.requests + [ClientRequest(Connecting, |s.timers|, false)];
  }

  lemma PhaseStep(s: State, e: Event, r: nat)
    requires Structure(s) && Enabled(s, e)
    ensures PhaseMoves(s, e, r)
  {
    if e == Return {
      PhaseOfReturn(s, r);
    } else if e == Request {
      PhaseOfRequest(s, r);
    } else if e.Connected? || e.Respond? {
      PhaseOfResponse(s, e, r);
    } else {
      RequestsKept(s, e);
    }
  }

  lemma ReturnAdds(s: State, topic: Topic)
    requires Enabled(s, Return)
    ensures Story(Added(s, Return), topic)
         == if Added(s, Return) != [] && About(Added(s, Return)[0], topic) then Added(s, Return) else []
    ensures |Added(s, Return)| <= 1
  {
  }

  /** What a step logs about request `r`. */
  function AboutRequest(s: State, e: Event, r: nat): seq<Entry> {
    if Answers(e, r) then [TimeoutStopped(r), HandlerRun(r)]
    else if EndsResponse(s, e, r) && s.queues != [] then [Launched(|s.queues| - 1, ByClient(r))] else []
  }

  lemma ReturnAboutRequest(s: State, r: nat)
    requires Structure(s) && Enabled(s, Return)
    ensures Story(Added(s, Return), OfRequest(r)) == AboutRequest(s, Return, r)
  {
    assert Current(s, s.clientQueue);
    ReturnAdds(s, OfRequest(r));
  }

  /** The steps that can log something. */
  predicate Logs(e: Event) {
    e.NewRequest? || e == Return || e.StopTimer? || e.DropContext? || e.Dispatch? || e.Connected? || e.Respond?
  }

  lemma NothingAdded(s: State, e: Event)
    requires Enabled(s, e) && !Logs(e)
    ensures Added(s, e) == []
  {
  }

  /** Steps of the application and of timers log nothing about client requests. */
  lemma OtherwiseAboutRequest(s: State, e: Event, r: nat)
    requires Enabled(s, e) && (e.NewRequest? || e.StopTimer? || e.DropContext? || e.Dispatch?)
    ensures Story(Added(s, e), OfRequest(r)) == [] && AboutRequest(s, e, r) == []
  {
  }

  lemma AddedAboutRequest(s: State, e: Event, r: nat)
    requires Structure(s) && Enabled(s, e)
    ensures Story(Added(s, e), OfRequest(r)) == AboutRequest(s, e, r)
  {
    if e.Connected? || e.Respond? {
      StoryPair(TimeoutStopped(e.r), HandlerRun(e.r), OfRequest(r));
    } else if e == Return {
      ReturnAboutRequest(s, r);
    } else if Logs(e) {
      OtherwiseAboutRequest(s, e, r);
    } else {
      QuietAboutRequest(s, e, r);
    }
  }

  lemma QuietAboutRequest(s: State, e: Event, r: nat)
    requires Enabled(s, e) && !Logs(e)
    ensures Story(Added(s, e), OfRequest(r)) == [] && AboutRequest(s, e, r) == []
  {
    NothingAdded(s, e);
  }

  predicate RequestStory(s: State, r: nat) {
    Fits(Story(s.log, OfRequest(r)), r, PhaseOf(s, r))
  }

  lemma RequestStoryStep(s: State, e: Event, r: nat)
    requires Structure(s) && Enabled(s, e) && RequestStory(s, r)
    ensures RequestStory(Step(s, e), r)
  {
    var t, story := Step(s, e), Story(s.log, OfRequest(r));
    LogStep(s, e);
    StoryConcat(s.log, Added(s, e), OfRequest(r));
    AddedAboutRequest(s, e, r);
    PhaseStep(s, e, r);
    FitsNext(story, r, PhaseOf(s, r), PhaseOf(t, r), Story(Added(s, e), OfRequest(r)), |s.queues|);
  }

  lemma FitsNext(story: seq<Entry>, r: nat, before: Option<RequestPhase>, after: Option<RequestPhase>,
      added: seq<Entry>, queues: nat)
    requires Fits(story, r, before)
    requires
      || (&& (before == Some(Connecting) || before == Some(Accepted)) && after == Some(Answering)
          && added == [TimeoutStopped(r), HandlerRun(r)])
      || (before == Some(Answering) && after == Some(Done) && queues > 0
          && added == [Launched(queues - 1, ByClient(r))])
      || (&& (|| after == before
              || (before == Some(Connecting) && after == Some(Accepted))
              || (before == None && after == Some(Connecting)))
          && added == [])
    ensures Fits(story + added, r, after)
  {
    assert story + [] == story;
    assert [] + added == added;
  }

  lemma {:induction false} RequestStoryRun(s: State, es: seq<Event>, r: nat)
    requires Structure(s) && Legal(s, es) && RequestStory(s, r)
    ensures RequestStory(Run(s, es), r)
    decreases |es|
  {
    if es != [] {
      StructureStep(s, es[0]);
      RequestStoryStep(s, es[0], r);
      RequestStoryRun(Step(s, es[0]), es[1..], r);
    }
  }

  /**
   * However connecting, rejection, response and timeout interleave, a client
   * request goes through stopping its timeout timer, its response handler and
   * one launch of the queue, each once and in this order; the launch has
   * happened exactly when the request is done.
   */
  lemma ClientRequestLifecycle(es: seq<Event>, r: nat)
    requires Legal(INIT, es)
    ensures var s := Run(INIT, es);
            var story := Story(s.log, OfRequest(r));
            && |story| <= 3
            && (|story| > 0 ==> story[0] == TimeoutStopped(r))
            && (|story| > 1 ==> story[1] == HandlerRun(r))
            && (|story| > 2 ==> story[2].Launched? && story[2].cause == ByClient(r))
            && (|story| == 3 <==> r < |s.requests| && s.requests[r].phase == Done)
  {
    RequestStoryRun(INIT, es, r);
  }

  lemma AnsweredStep(s: State, e: Event, r: nat)
    requires Structure(s) && Enabled(s, e) && PhaseOf(s, r) == Some(Done)
    ensures PhaseOf(Step(s, e), r) == Some(Done) && Story(Step(s, e).log, OfRequest(r)) == Story(s.log, OfRequest(r))
  {
    LogStep(s, e);
    StoryConcat(s.log, Added(s, e), OfRequest(r));
    AddedAboutRequest(s, e, r);
    PhaseStep(s, e, r);
  }

  /** Nothing is logged about a request that is done. */
  lemma {:induction false} AnsweredRun(s: State, es: seq<Event>, r: nat)
    requires Structure(s) && Legal(s, es) && PhaseOf(s, r) == Some(Done)
    ensures Story(Run(s, es).log, OfRequest(r)) == Story(s.log, OfRequest(r))
    decreases |es|
  {
    if es != [] {
      StructureStep(s, es[0]);
      AnsweredStep(s, es[0], r);
      AnsweredRun(Step(s, es[0]), es[1..], r);
    }
  }

  lemma EndingLaunchesCurrent(s: State, e: Event, r: nat)
    requires Structure(s) && Enabled(s, e) && RequestStory(s, r) && EndsResponse(s, e, r)
    ensures Story(s.log, OfRequest(r)) == [TimeoutStopped(r), HandlerRun(r)] && s.queues != []
    ensures Story(Step(s, e).log, OfRequest(r))
            == [TimeoutStopped(r), HandlerRun(r), Launched(|s.queues| - 1, ByClient(r))]
    ensures PhaseOf(Step(s, e), r) == Some(Done)
  {
    LogStep(s, e);
    StoryConcat(s.log, Added(s, e), OfRequest(r));
    AddedAboutRequest(s, e, r);
    PhaseStep(s, e, r);
  }

  /** From `s` to `u` the story of request `r` has got its last entry, a launch of the queue that is current in `s`. */
  predicate LaunchesTheCurrentQueue(s: State, u: State, r: nat) {
    && s.queues != [] && Story(s.log, OfRequest(r)) == [TimeoutStopped(r), HandlerRun(r)]
    && Story(u.log, OfRequest(r)) == [TimeoutStopped(r), HandlerRun(r), Launched(|s.queues| - 1, ByClient(r))]
  }

  lemma EndingLaunchesForEver(s: State, e: Event, more: seq<Event>, r: nat)
    requires Structure(s) && RequestStory(s, r) && Enabled(s, e) && EndsResponse(s, e, r) && Legal(Step(s, e), more)
    ensures LaunchesTheCurrentQueue(s, Run(Step(s, e), more), r)
  {
    EndingLaunchesCurrent(s, e, r);
    StructureStep(s, e);
    AnsweredRun(Step(s, e), more, r);
  }

  /**
   * The launch after a response handler is that of the queue which is current
   * when the handler returns. Here `es` leads to that step `e`, and `more` follows it.
   */
  lemma ResponseLaunchesTheQueueOfTheMoment(es: seq<Event>, e: Event, more: seq<Event>, r: nat)
    requires Legal(INIT, es) && Enabled(Run(INIT, es), e) && Legal(Step(Run(INIT, es), e), more)
    requires EndsResponse(Run(INIT, es), e, r)
    ensures var s := Run(INIT, es);
            LaunchesTheCurrentQueue(s, Run(Step(s, e), more), r)
  {
    StructureRun(INIT, es);
    RequestStoryRun(INIT, es, r);
    EndingLaunchesForEver(Run(INIT, es), e, more, r);
  }

  // ---------------------------------------------------------------------------
  // Tasks
  // ---------------------------------------------------------------------------

  /** Task `j` after the step. */
  function NextTask(s: State, e: Event, j: nat): Task
    requires Enabled(s, e) && j < |s.tasks|
  {
    var task := s.tasks[j];
    if e == Return && s.stack[0] == TaskCallback(j) then task.(phase := Finished)
    else if e == CopyContext(j) then task.(spare := task.spare + 1)
    else if e == DropContext(j) then task.(spare := task.spare - 1)
    else if e == RunTask(j) then task.(phase := Running)
    else task
  }

  lemma TasksOfReturn(s: State, j: nat)
    requires Enabled(s, Return) && j < |s.tasks|
    ensures |Step(s, Return).tasks| == |s.tasks| && Step(s, Return).tasks[j] == NextTask(s, Return, j)
  {
  }

  lemma TaskStep(s: State, e: Event, j: nat)
    requires Enabled(s, e) && j < |s.tasks|
    ensures |Step(s, e).tasks| == |s.tasks| + if e == Post then 1 else 0
    ensures Step(s, e).tasks[j] == NextTask(s, e, j)
  {
    if !UsesTasks(e) {
      TasksKept(s, e);
    } else if e == Return {
      TasksOfReturn(s, j);
    } else if e == Post {
      assert Step(s, e).tasks == s.tasks + [Task(s.dispatcherQueue, Posted, 0)];
    }
  }

  /** The last TaskContext of task `j` disappears in this step. */
  predicate EndsTask(s: State, e: Event, j: nat)
    requires Enabled(s, e)
  {
    j < |s.tasks| && Live(s.tasks[j]) && !Live(NextTask(s, e, j))
  }

  lemma ReturnAboutTask(s: State, j: nat)
    requires Structure(s) && Enabled(s, Return)
    ensures Story(Added(s, Return), OfTask(j))
         == if EndsTask(s, Return, j) then LaunchEntry(s, s.tasks[j].queue, ByTask(j)) else []
  {
    assert s.stack[0] in s.stack;
    ReturnAdds(s, OfTask(j));
  }

  lemma DropAboutTask(s: State, e: Event, j: nat)
    requires Structure(s) && Enabled(s, e) && e.DropContext?
    ensures Story(Added(s, e), OfTask(j))
         == if EndsTask(s, e, j) then LaunchEntry(s, s.tasks[j].queue, ByTask(j)) else []
  {
  }

  /** The steps of requests and timers neither end a task nor log anything about one. */
  lemma OtherwiseAboutTask(s: State, e: Event, j: nat)
    requires Structure(s) && Enabled(s, e) && (e.NewRequest? || e.StopTimer? || e.Dispatch?)
    ensures Story(Added(s, e), OfTask(j)) == [] && !EndsTask(s, e, j)
  {
  }

  lemma QuietAboutTask(s: State, e: Event, j: nat)
    requires Structure(s) && Enabled(s, e) && !Logs(e)
    ensures Story(Added(s, e), OfTask(j)) == [] && !EndsTask(s, e, j)
  {
    NothingAdded(s, e);
  }

  lemma AddedAboutTask(s: State, e: Event, j: nat)
    requires Structure(s) && Enabled(s, e)
    ensures Story(Added(s, e), OfTask(j))
         == if EndsTask(s, e, j) then LaunchEntry(s, s.tasks[j].queue, ByTask(j)) else []
  {
    if e.Connected? || e.Respond? {
      StoryPair(TimeoutStopped(e.r), HandlerRun(e.r), OfTask(j));
    } else if e == Return {
      ReturnAboutTask(s, j);
    } else if e.DropContext? {
      DropAboutTask(s, e, j);
    } else if Logs(e) {
      OtherwiseAboutTask(s, e, j);
    } else {
      QuietAboutTask(s, e, j);
    }
  }

  /** How far task `j` is: not posted, alive with the queue it was posted with, or finished. */
  datatype TaskStage = NotPosted | Alive(queue: Option<nat>) | Over(was: Option<nat>)

  function StageOf(s: State, j: nat): TaskStage {
    if j >= |s.tasks| then NotPosted
    else if Live(s.tasks[j]) then Alive(s.tasks[j].queue)
    else Over(s.tasks[j].queue)
  }

  lemma NextTaskLife(s: State, e: Event, j: nat)
    requires Structure(s) && Enabled(s, e) && j < |s.tasks|
    ensures NextTask(s, e, j).queue == s.tasks[j].queue
    ensures Live(NextTask(s, e, j)) ==> Live(s.tasks[j])
  {
    assert TaskOk(s.tasks[j], |s.queues|);
    if e == Return {
      assert s.stack[0] in s.stack;
    }
  }

  lemma StageNext(s: State, e: Event, j: nat)
    requires Structure(s) && Enabled(s, e)
    ensures var before, after := StageOf(s, j), StageOf(Step(s, e), j);
            && (before == NotPosted ==> after == before || (s.queues != [] && after == Alive(Some(|s.queues| - 1))))
            && (before.Alive? ==> after == if EndsTask(s, e, j) then Over(before.queue) else before)
            && (before.Over? ==> after == before)
  {
    if j < |s.tasks| {
      TaskStep(s, e, j);
      NextTaskLife(s, e, j);
    } else {
      NewTask(s, e);
    }
  }

  /** Only the step that ends a task logs something about it. */
  lemma StageStep(s: State, e: Event, j: nat)
    requires Structure(s) && Enabled(s, e)
    ensures Story(Step(s, e).log, OfTask(j))
         == Story(s.log, OfTask(j)) + if EndsTask(s, e, j) then LaunchEntry(s, s.tasks[j].queue, ByTask(j)) else []
    ensures EndsTask(s, e, j) <==> StageOf(s, j).Alive? && StageOf(Step(s, e), j).Over?
  {
    LogStep(s, e);
    StoryConcat(s.log, Added(s, e), OfTask(j));
    AddedAboutTask(s, e, j);
    StageNext(s, e, j);
  }

  lemma NewTask(s: State, e: Event)
    requires Structure(s) && Enabled(s, e)
    ensures |Step(s, e).tasks| == |s.tasks| + if e == Post then 1 else 0
    ensures e == Post ==> s.queues != [] && Step(s, e).tasks[|s.tasks|] == Task(Some(|s.queues| - 1), Posted, 0)
  {
    if !UsesTasks(e) {
      TasksKept(s, e);
    }
  }

  /** How often a run copies, and drops, a context of task `j`. */
  function Copies(es: seq<Event>, j: nat): nat {
    if es == [] then 0 else (if es[0] == CopyContext(j) then 1 else 0) + Copies(es[1..], j)
  }

  function Drops(es: seq<Event>, j: nat): nat {
    if es == [] then 0 else (if es[0] == DropContext(j) then 1 else 0) + Drops(es[1..], j)
  }

  function SpareOf(s: State, j: nat): nat {
    if j < |s.tasks| then s.tasks[j].spare else 0
  }

  lemma SpareStep(s: State, e: Event, j: nat)
    requires Structure(s) && Enabled(s, e)
    ensures SpareOf(Step(s, e), j) + (if e == DropContext(j) then 1 else 0)
         == SpareOf(s, j) + if e == CopyContext(j) then 1 else 0
  {
    if j < |s.tasks| {
      TaskStep(s, e, j);
    } else {
      NewTask(s, e);
    }
  }

  lemma {:induction false} SpareRun(s: State, es: seq<Event>, j: nat)
    requires Structure(s) && Legal(s, es)
    ensures SpareOf(Run(s, es), j) + Drops(es, j) == SpareOf(s, j) + Copies(es, j)
    decreases |es|
  {
    if es != [] {
      StructureStep(s, es[0]);
      SpareStep(s, es[0], j);
      SpareRun(Step(s, es[0]), es[1..], j);
    }
  }

  /**
   * In every run a task ends exactly when its callback has returned and every
   * context that was ever copied from its own has been dropped.
   */
  lemma TaskEndsWithItsLastContext(es: seq<Event>, j: nat)
    requires Legal(INIT, es) && j < |Run(INIT, es).tasks|
    ensures Drops(es, j) <= Copies(es, j)
    ensures StageOf(Run(INIT, es), j).Over?
       <==> Run(INIT, es).tasks[j].phase == Finished && Copies(es, j) == Drops(es, j)
  {
    SpareRun(INIT, es, j);
  }

  /** Nothing is logged about a task before it ends. */
  lemma {:induction false} UnfinishedRun(s: State, es: seq<Event>, j: nat)
    requires Structure(s) && Legal(s, es) && !StageOf(Run(s, es), j).Over?
    ensures Story(Run(s, es).log, OfTask(j)) == Story(s.log, OfTask(j))
    ensures !StageOf(s, j).Over? && (StageOf(s, j).Alive? ==> StageOf(Run(s, es), j) == StageOf(s, j))
    decreases |es|
  {
    if es != [] {
      StructureStep(s, es[0]);
      StageNext(s, es[0], j);
      StageStep(s, es[0], j);
      UnfinishedRun(Step(s, es[0]), es[1..], j);
    }
  }

  /** Nothing is logged about a task after it has ended. */
  lemma {:induction false} FinishedRun(s: State, es: seq<Event>, j: nat)
    requires Structure(s) && Legal(s, es) && StageOf(s, j).Over?
    ensures Story(Run(s, es).log, OfTask(j)) == Story(s.log, OfTask(j))
    decreases |es|
  {
    if es != [] {
      StructureStep(s, es[0]);
      StageNext(s, es[0], j);
      StageStep(s, es[0], j);
      FinishedRun(Step(s, es[0]), es[1..], j);
    }
  }

  /** A task that is posted now gets the current queue. */
  predicate PostsForCurrent(s: State)
    requires Enabled(s, Post)
  {
    && StageOf(s, |s.tasks|) == NotPosted && s.queues != []
    && StageOf(Step(s, Post), |s.tasks|) == Alive(Some(|s.queues| - 1))
  }

  lemma PostedFrom(s: State)
    requires Structure(s) && Enabled(s, Post)
    ensures PostsForCurrent(s)
  {
    NewTask(s, Post);
  }

  /** A task gets the queue of the request during which it is posted. */
  lemma PostedForItsRequest(es: seq<Event>)
    requires Legal(INIT, es) && Enabled(Run(INIT, es), Post)
    ensures PostsForCurrent(Run(INIT, es))
  {
    StructureRun(INIT, es);
    PostedFrom(Run(INIT, es));
  }

  /**
   * However its contexts are copied and dropped, a task launches the queue that
   * it was posted with once, in the step that destroys the last context, or not
   * at all if that queue is gone by then; and it never launches another queue.
   * Here `es` leads to that step `e`, and `more` follows it.
   */
  lemma TaskResumesItsQueueOnce(es: seq<Event>, e: Event, more: seq<Event>, j: nat)
    requires Legal(INIT, es) && Enabled(Run(INIT, es), e) && Legal(Step(Run(INIT, es), e), more)
    requires StageOf(Run(INIT, es), j).Alive? && StageOf(Step(Run(INIT, es), e), j).Over?
    ensures Story(Run(INIT, es).log, OfTask(j)) == []
    ensures var s := Run(INIT, es);
            Story(Run(Step(s, e), more).log, OfTask(j)) == LaunchEntry(s, StageOf(s, j).queue, ByTask(j))
  {
    var s := Run(INIT, es);
    StructureRun(INIT, es);
    StructureStep(s, e);
    UnfinishedRun(INIT, es, j);
    StageStep(s, e, j);
    FinishedRun(Step(s, e), more, j);
  }
}
