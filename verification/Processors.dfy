/** In which order the processors of a request begin, and that a reply ends them. */
module Processors {
  import opened Options
  import opened Suspension
  import opened SuspensionInvariant
  import opened Resumption
  import opened StoppedTimers

  // ---------------------------------------------------------------------------
  // What a run does, read off its events
  // ---------------------------------------------------------------------------

  /** Whether a reply has been made since the last request came in; `before` says so for an empty run. */
  function Replied(es: seq<Event>, before: bool): bool {
    if es == [] then before
    else Replied(es[1..], if es[0] == Reply then true else if es[0].NewRequest? then false else before)
  }

  /** The processors of queue `q` that begin in a run, in order. */
  function Begun(s: State, es: seq<Event>, q: nat): seq<nat>
    requires Legal(s, es)
    decreases |es|
  {
    if es == [] then []
    else BegunBy(s, es[0], q) + Begun(Step(s, es[0]), es[1..], q)
  }

  /** The step calls a processor of queue `q`. */
  function BegunBy(s: State, e: Event, q: nat): seq<nat>
    requires Enabled(s, e)
  {
    var u := Step(s, e);
    if e == BeginProcessor && u.stack != [] && u.stack[0].Processor? && u.stack[0].queue == q then [u.stack[0].index]
    else []
  }

  /** How many processors match the request of queue `q`, counted from the requests of the run. */
  function Matching(es: seq<Event>, q: nat): nat {
    if es == [] then 0
    else if es[0].NewRequest? then if q == 0 then es[0].size else Matching(es[1..], q - 1)
    else Matching(es[1..], q)
  }

  // ---------------------------------------------------------------------------
  // The queues over one step
  // ---------------------------------------------------------------------------

  /** What a step leaves of queue `q` in the fields that decide about processors. */
  function NextQueue(s: State, e: Event, q: nat): (nat, nat, bool)
    requires Enabled(s, e) && q < |s.queues|
  {
    var queue := s.queues[q];
    (if e == BeginProcessor && s.stack[0].queue == q then queue.next + 1 else queue.next,
     queue.size,
     queue.answered || (e == Reply && q == |s.queues| - 1))
  }

  function Fields(queue: Queue): (nat, nat, bool) {
    (queue.next, queue.size, queue.answered)
  }

  predicate QueueGoesOn(s: State, e: Event, q: nat)
    requires Enabled(s, e) && q < |s.queues|
  {
    q < |Step(s, e).queues| && Fields(Step(s, e).queues[q]) == NextQueue(s, e, q)
  }

  lemma QueueOfReturn(s: State, q: nat)
    requires Enabled(s, Return) && q < |s.queues|
    ensures QueueGoesOn(s, Return, q)
  {
  }

  lemma QueueOfResponse(s: State, e: Event, q: nat)
    requires Structure(s) && Enabled(s, e) && q < |s.queues| && (e.Connected? || e.Respond?)
    ensures QueueGoesOn(s, e, q)
  {
    assert TimerOk(s.timers[s.requests[e.r].timer], s.serial, |s.queues|);
  }

  lemma QueueOfStarts(s: State, e: Event, q: nat)
    requires Enabled(s, e) && q < |s.queues| && (e.StartTimer? || e == Post)
    ensures QueueGoesOn(s, e, q)
  {
  }

  lemma QueueOfRequest(s: State, q: nat)
    requires Enabled(s, Request) && q < |s.queues|
    ensures QueueGoesOn(s, Request, q)
  {
  }

  lemma QueueOfLaunches(s: State, e: Event, q: nat)
    requires Enabled(s, e) && q < |s.queues| && (e.StopTimer? || e.DropContext?)
    ensures QueueGoesOn(s, e, q)
  {
  }

  lemma QueueOfOthers(s: State, e: Event, q: nat)
    requires Enabled(s, e) && q < |s.queues| && e != Return && !e.Connected? && !e.Respond?
    requires !e.StartTimer? && !e.StopTimer? && e != Post && e != Request && !e.DropContext?
    ensures QueueGoesOn(s, e, q)
  {
  }

  lemma QueueStep(s: State, e: Event, q: nat)
    requires Structure(s) && Enabled(s, e) && q < |s.queues|
    ensures QueueGoesOn(s, e, q)
  {
    if e == Return {
      QueueOfReturn(s, q);
    } else if e.Connected? || e.Respond? {
      QueueOfResponse(s, e, q);
    } else if e.StartTimer? || e == Post {
      QueueOfStarts(s, e, q);
    } else if e == Request {
      QueueOfRequest(s, q);
    } else if e.StopTimer? || e.DropContext? {
      QueueOfLaunches(s, e, q);
    } else {
      QueueOfOthers(s, e, q);
    }
  }

  lemma NewQueue(s: State, size: nat)
    requires Enabled(s, NewRequest(size))
    ensures |Step(s, NewRequest(size)).queues| == |s.queues| + 1
    ensures Fields(Step(s, NewRequest(size)).queues[|s.queues|]) == (0, size, false)
  {
  }

  /** A new request gets a queue of its own, which all services use, and which is launched. */
  lemma NewRequestLaunches(es: seq<Event>, size: nat)
    requires Legal(INIT, es) && Enabled(Run(INIT, es), NewRequest(size))
    ensures var q, u := |Run(INIT, es).queues|, Step(Run(INIT, es), NewRequest(size));
            && |u.queues| == q + 1 && u.stack == [Launching(q)] && !u.queues[q].stopped
            && u.clientQueue == u.dispatcherQueue == u.providerQueue == Some(q)
  {
  }

  // ---------------------------------------------------------------------------
  // Order
  // ---------------------------------------------------------------------------

  function NextOf(s: State, q: nat): nat {
    if q < |s.queues| then s.queues[q].next else 0
  }

  lemma NextOfStep(s: State, e: Event, q: nat)
    requires Structure(s) && Enabled(s, e)
    ensures BegunBy(s, e, q) == if e == BeginProcessor && s.stack[0].queue == q then [NextOf(s, q)] else []
    ensures NextOf(Step(s, e), q) == NextOf(s, q) + |BegunBy(s, e, q)|
  {
    if q < |s.queues| {
      QueueStep(s, e, q);
    } else {
      QueuesKept(s, e);
      if e.NewRequest? {
        NewQueue(s, e.size);
      }
    }
  }

  lemma {:induction false} BegunInOrder(s: State, es: seq<Event>, q: nat)
    requires Structure(s) && Legal(s, es)
    ensures NextOf(Run(s, es), q) == NextOf(s, q) + |Begun(s, es, q)|
    ensures forall i :: 0 <= i < |Begun(s, es, q)| ==> Begun(s, es, q)[i] == NextOf(s, q) + i
    decreases |es|
  {
    if es != [] {
      StructureStep(s, es[0]);
      NextOfStep(s, es[0], q);
      BegunInOrder(Step(s, es[0]), es[1..], q);
    }
  }

  predicate WithinSize(s: State, q: nat) {
    q < |s.queues| ==> s.queues[q].next <= s.queues[q].size
  }

  lemma SizeStep(s: State, e: Event, q: nat)
    requires Structure(s) && Enabled(s, e) && WithinSize(s, q)
    ensures WithinSize(Step(s, e), q)
    ensures q < |s.queues| ==> q < |Step(s, e).queues| && Step(s, e).queues[q].size == s.queues[q].size
    ensures q == |s.queues| && e.NewRequest? ==> q < |Step(s, e).queues| && Step(s, e).queues[q].size == e.size
  {
    if q < |s.queues| {
      QueueStep(s, e, q);
    } else {
      QueuesKept(s, e);
      if e.NewRequest? {
        NewQueue(s, e.size);
      }
    }
  }

  /** The size of queue `q`, that of an earlier request or of one in the run. */
  function SizeOf(s: State, es: seq<Event>, q: nat): nat {
    if q < |s.queues| then s.queues[q].size else Matching(es, q - |s.queues|)
  }

  lemma {:induction false} SizeRun(s: State, es: seq<Event>, q: nat)
    requires Structure(s) && Legal(s, es) && WithinSize(s, q)
    ensures WithinSize(Run(s, es), q)
    ensures q < |Run(s, es).queues| ==> Run(s, es).queues[q].size == SizeOf(s, es, q)
    decreases |es|
  {
    if es != [] {
      StructureStep(s, es[0]);
      SizeStep(s, es[0], q);
      QueuesKept(s, es[0]);
      SizeRun(Step(s, es[0]), es[1..], q);
    }
  }

  /** The processors 0, 1, 2 and so on, each once, and at most `n` of them. */
  predicate InOrder(begun: seq<nat>, n: nat) {
    (forall i :: 0 <= i < |begun| ==> begun[i] == i) && |begun| <= n
  }

  lemma BegunFromStart(s: State, es: seq<Event>, q: nat)
    requires Structure(s) && s.queues == [] && Legal(s, es)
    ensures InOrder(Begun(s, es, q), Matching(es, q))
  {
    BegunInOrder(s, es, q);
    SizeRun(s, es, q);
  }

  /**
   * In every run the processors of each request begin one after the other in the
   * order in which they match, each once, and none but those that match.
   */
  lemma ProcessorsBeginInOrder(es: seq<Event>, q: nat)
    requires Legal(INIT, es)
    ensures InOrder(Begun(INIT, es, q), Matching(es, q))
  {
    BegunFromStart(INIT, es, q);
  }

  // ---------------------------------------------------------------------------
  // Replies
  // ---------------------------------------------------------------------------

  predicate Answered(s: State) {
    s.queues != [] && s.queues[|s.queues| - 1].answered
  }

  lemma AnsweredStep(s: State, e: Event)
    requires Structure(s) && Enabled(s, e)
    ensures Answered(Step(s, e)) <==> if e == Reply then true else if e.NewRequest? then false else Answered(s)
  {
    QueuesKept(s, e);
    if e.NewRequest? {
      NewQueue(s, e.size);
    } else if s.queues != [] {
      QueueStep(s, e, |s.queues| - 1);
    }
  }

  lemma {:induction false} RepliedRun(s: State, es: seq<Event>)
    requires Structure(s) && Legal(s, es)
    ensures Answered(Run(s, es)) <==> Replied(es, Answered(s))
    decreases |es|
  {
    if es != [] {
      StructureStep(s, es[0]);
      AnsweredStep(s, es[0]);
      RepliedRun(Step(s, es[0]), es[1..]);
    }
  }

  /** What decides whether a launched queue calls another processor. */
  predicate GoesOn(s: State, es: seq<Event>)
    requires Legal(s, es)
  {
    var u := Run(s, es);
    u.queues != [] && var q := |u.queues| - 1;
      && !u.queues[q].stopped && !Replied(es, false) && |Begun(s, es, q)| < Matching(es, q)
  }

  lemma LaunchingIsCurrent(s: State)
    requires Structure(s) && s.stack != [] && s.stack[0].Launching?
    ensures s.queues != [] && s.stack[0].queue == |s.queues| - 1
    ensures var queue := s.queues[|s.queues| - 1];
            && (Enabled(s, BeginProcessor) <==> !queue.stopped && !queue.answered && queue.next < queue.size)
            && (Enabled(s, EndLaunch) <==> !Enabled(s, BeginProcessor))
  {
    assert s.stack[0] in s.stack;
  }

  /** The launched queue calls another processor if `goesOn` holds, and returns otherwise. */
  predicate Decides(s: State, goesOn: bool) {
    (Enabled(s, BeginProcessor) <==> goesOn) && (Enabled(s, EndLaunch) <==> !goesOn)
  }

  lemma LaunchDecides(s: State, replied: bool, begun: nat, size: nat)
    requires Structure(s) && s.stack != [] && s.stack[0].Launching? && s.queues != []
    requires Answered(s) <==> replied
    requires NextOf(s, |s.queues| - 1) == begun && s.queues[|s.queues| - 1].size == size
    ensures Decides(s, !s.queues[|s.queues| - 1].stopped && !replied && begun < size)
  {
    LaunchingIsCurrent(s);
  }

  /** The fields of queue `q` are what the events of the run say. */
  lemma FieldsOfRun(s: State, es: seq<Event>, q: nat)
    requires Structure(s) && s.queues == [] && Legal(s, es) && q < |Run(s, es).queues|
    ensures NextOf(Run(s, es), q) == |Begun(s, es, q)| && Run(s, es).queues[q].size == Matching(es, q)
    ensures Answered(Run(s, es)) <==> Replied(es, false)
  {
    BegunInOrder(s, es, q);
    SizeRun(s, es, q);
    RepliedRun(s, es);
  }

  lemma LaunchGoesOnFrom(s: State, es: seq<Event>)
    requires Structure(s) && s.queues == [] && Legal(s, es)
    requires Run(s, es).stack != [] && Run(s, es).stack[0].Launching?
    ensures Decides(Run(s, es), GoesOn(s, es))
  {
    var u := Run(s, es);
    StructureRun(s, es);
    LaunchingIsCurrent(u);
    var q := |u.queues| - 1;
    FieldsOfRun(s, es, q);
    LaunchDecides(u, Replied(es, false), |Begun(s, es, q)|, Matching(es, q));
  }

  /**
   * A launched queue calls another processor exactly if it is not stopped, no
   * reply has been made since the request came in, and not all of the matching
   * processors have begun; otherwise the launch ends.
   */
  lemma LaunchGoesOnExactly(es: seq<Event>)
    requires Legal(INIT, es) && Run(INIT, es).stack != [] && Run(INIT, es).stack[0].Launching?
    ensures Decides(Run(INIT, es), GoesOn(INIT, es))
  {
    LaunchGoesOnFrom(INIT, es);
  }

  lemma {:induction false} AnsweredBeginsNothing(s: State, es: seq<Event>, q: nat)
    requires Structure(s) && Legal(s, es) && q < |s.queues| && s.queues[q].answered
    ensures Begun(s, es, q) == []
    decreases |es|
  {
    if es != [] {
      StructureStep(s, es[0]);
      QueueStep(s, es[0], q);
      NextOfStep(s, es[0], q);
      AnsweredBeginsNothing(Step(s, es[0]), es[1..], q);
    }
  }

  /** After a reply in `s` no processor of the current request begins in the run `more`. */
  predicate ReplyEndsProcessing(s: State, more: seq<Event>)
    requires Enabled(s, Reply) && Legal(Step(s, Reply), more)
  {
    s.queues != [] && Begun(Step(s, Reply), more, |s.queues| - 1) == []
  }

  lemma NoProcessorAfterReplyFrom(s: State, more: seq<Event>)
    requires Structure(s) && Enabled(s, Reply) && Legal(Step(s, Reply), more)
    ensures ReplyEndsProcessing(s, more)
  {
    StructureStep(s, Reply);
    AnsweredBeginsNothing(Step(s, Reply), more, |s.queues| - 1);
  }

  /** After a reply no processor of that request begins any more, whatever launches its queue. */
  lemma NoProcessorAfterReply(es: seq<Event>, more: seq<Event>)
    requires Legal(INIT, es) && Enabled(Run(INIT, es), Reply) && Legal(Step(Run(INIT, es), Reply), more)
    ensures ReplyEndsProcessing(Run(INIT, es), more)
  {
    StructureRun(INIT, es);
    NoProcessorAfterReplyFrom(Run(INIT, es), more);
  }
}
