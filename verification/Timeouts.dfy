/** The timeout of a client request: whom it stops, and what it can do when it expires. */
module Timeouts {
  import opened Options
  import opened Timers
  import opened Suspension
  import opened SuspensionInvariant
  import opened Resumption
  import opened Stories
  import opened TimerRuns

  /** The timer of a client request is started once, by `makeRequest`, and not periodically. */
  predicate StartedOnce(waits: seq<Wait>) {
    |waits| <= 1 && (waits != [] ==> !waits[0].periodic)
  }

  predicate TimeoutsOk(s: State) {
    && (forall t :: 0 <= t < |s.timers| && s.timers[t].owner.Timeout? ==> StartedOnce(s.timers[t].waits))
    && (forall f :: f in s.stack ==>
          f.TimerCallback? && f.timer < |s.timers| && s.timers[f.timer].owner.Timeout? ==> !f.periodic)
  }

  lemma TimeoutNext(s: State, e: Event, t: nat)
    requires TimeoutsOk(s) && Enabled(s, e) && t < |s.timers| && s.timers[t].owner.Timeout?
    ensures StartedOnce(NextWaits(s, e, t))
    ensures forall i :: 0 <= i < |NextWaits(s, e, t)| && NextWaits(s, e, t)[i].phase == Armed ==>
              !StopsTimeout(s, e, t) && i < |s.timers[t].waits| && s.timers[t].waits[i].phase == Armed
  {
    if e == Return {
      assert s.stack[0] in s.stack;
    }
  }

  lemma NewTimeouts(s: State, e: Event, t: nat)
    requires Enabled(s, e) && |s.timers| <= t < |Step(s, e).timers|
    ensures t == |s.timers|
    ensures Step(s, e).timers[t].owner.Timeout? ==> e == Request && StartedOnce(Step(s, e).timers[t].waits)
  {
    TimersGrow(s, e);
  }

  lemma TimeoutsStep(s: State, e: Event)
    requires Structure(s) && TimeoutsOk(s) && Enabled(s, e)
    ensures TimeoutsOk(Step(s, e))
  {
    var u := Step(s, e);
    forall t | 0 <= t < |u.timers| && u.timers[t].owner.Timeout?
      ensures StartedOnce(u.timers[t].waits)
    {
      if t < |s.timers| {
        TimerStep(s, e, t);
        TimeoutNext(s, e, t);
      } else {
        NewTimeouts(s, e, t);
      }
    }
    forall f | f in u.stack && f.TimerCallback? && f.timer < |u.timers| && u.timers[f.timer].owner.Timeout?
      ensures !f.periodic
    {
      FramesNext(s, e, f);
      if f in s.stack {
        assert FrameOk(s, f);
      }
      TimerStep(s, e, f.timer);
    }
  }

  /** Once request `r` has its result, its timeout timer is not armed. */
  predicate Disarmed(s: State, r: nat) {
    && r < |s.requests| && s.requests[r].timer < |s.timers|
    && (s.requests[r].phase == Answering || s.requests[r].phase == Done) ==>
      forall i :: 0 <= i < |s.timers[s.requests[r].timer].waits| ==>
        s.timers[s.requests[r].timer].waits[i].phase != Armed
  }

  /** Request `r` after the step. */
  function NextRequest(s: State, e: Event, r: nat): ClientRequest
    requires Enabled(s, e) && r < |s.requests|
  {
    var request := s.requests[r];
    if Answers(e, r) then request.(phase := Answering)
    else if EndsResponse(s, e, r) then request.(phase := Done)
    else if e.Connected? && e.r == r then request.(phase := Accepted, cancels := true)
    else request
  }

  lemma RequestOfReturn(s: State, r: nat)
    requires Enabled(s, Return) && r < |s.requests|
    ensures |Step(s, Return).requests| == |s.requests| && Step(s, Return).requests[r] == NextRequest(s, Return, r)
  {
  }

  lemma RequestOfRequest(s: State)
    requires Enabled(s, Request)
    ensures Step(s, Request).requests == s.requests + [ClientRequest(Connecting, |s.timers|, false)]
  {
  }

  lemma RequestOfResponse(s: State, e: Event, r: nat)
    requires Enabled(s, e) && r < |s.requests| && (e.Connected? || e.Respond?)
    ensures |Step(s, e).requests| == |s.requests| && Step(s, e).requests[r] == NextRequest(s, e, r)
  {
  }

  lemma RequestNext(s: State, e: Event, r: nat)
    requires Enabled(s, e) && r < |s.requests|
    ensures r < |Step(s, e).requests| && Step(s, e).requests[r] == NextRequest(s, e, r)
  {
    if !UsesRequests(e) {
      RequestsKept(s, e);
    } else if e == Request {
      RequestOfRequest(s);
    } else if e == Return {
      RequestOfReturn(s, r);
    } else {
      RequestOfResponse(s, e, r);
    }
  }

  lemma ReturnKeepsCount(s: State)
    requires Enabled(s, Return)
    ensures |Step(s, Return).requests| == |s.requests|
  {
  }

  lemma ResponseKeepsCount(s: State, e: Event)
    requires Enabled(s, e) && (e.Connected? || e.Respond?)
    ensures |Step(s, e).requests| == |s.requests|
  {
  }

  /** Only `makeRequest` adds a request. */
  lemma RequestCount(s: State, e: Event)
    requires Enabled(s, e)
    ensures |Step(s, e).requests| == |s.requests| + if e == Request then 1 else 0
    ensures e == Request ==> Step(s, e).requests[|s.requests|] == ClientRequest(Connecting, |s.timers|, false)
  {
    if !UsesRequests(e) {
      RequestsKept(s, e);
    } else if e == Request {
      RequestOfRequest(s);
    } else if e == Return {
      ReturnKeepsCount(s);
    } else {
      ResponseKeepsCount(s, e);
    }
  }

  lemma RequestTimerKept(s: State, e: Event, r: nat)
    requires Enabled(s, e)
    ensures r < |s.requests| ==> r < |Step(s, e).requests| && Step(s, e).requests[r].timer == s.requests[r].timer
    ensures |s.requests| <= r < |Step(s, e).requests| ==> Step(s, e).requests[r].phase == Connecting
  {
    RequestCount(s, e);
    if r < |s.requests| {
      RequestNext(s, e, r);
    }
  }

  lemma DisarmedStep(s: State, e: Event, r: nat)
    requires Structure(s) && TimeoutsOk(s) && Enabled(s, e) && Disarmed(s, r)
    ensures Disarmed(Step(s, e), r)
  {
    RequestTimerKept(s, e, r);
    if r < |s.requests| {
      var t := s.requests[r].timer;
      TimerStep(s, e, t);
      TimeoutNext(s, e, t);
      PhaseStep(s, e, r);
      assert StopsTimeout(s, e, t) || !Answers(e, r);
    }
  }

  lemma {:induction false} DisarmedRun(s: State, es: seq<Event>, r: nat)
    requires Structure(s) && TimeoutsOk(s) && Legal(s, es) && Disarmed(s, r)
    ensures Structure(Run(s, es)) && TimeoutsOk(Run(s, es)) && Disarmed(Run(s, es), r)
    decreases |es|
  {
    if es != [] {
      StructureStep(s, es[0]);
      TimeoutsStep(s, es[0]);
      DisarmedStep(s, es[0], r);
      DisarmedRun(Step(s, es[0]), es[1..], r);
    }
  }

  /** While the response handler of a request runs, and ever after, its timeout timer is not armed. */
  lemma TimeoutIsDisarmed(es: seq<Event>, r: nat)
    requires Legal(INIT, es) && r < |Run(INIT, es).requests|
    ensures var s := Run(INIT, es);
            && s.requests[r].timer < |s.timers|
            && (s.requests[r].phase == Answering || s.requests[r].phase == Done ==>
                  forall i :: 0 <= i < |s.timers[s.requests[r].timer].waits| ==>
                    s.timers[s.requests[r].timer].waits[i].phase != Armed)
  {
    DisarmedRun(INIT, es, r);
    assert Disarmed(Run(INIT, es), r);
  }

  // ---------------------------------------------------------------------------
  // What a timeout can do
  // ---------------------------------------------------------------------------

  /**
   * The function that the timeout calls cancels every accepted request, and is empty while
   * the request is connecting.
   */
  predicate HooksOk(s: State) {
    forall r :: 0 <= r < |s.requests| ==>
      && (s.requests[r].cancels ==> s.requests[r].phase != Connecting)
      && (s.requests[r].phase == Accepted ==> s.requests[r].cancels)
  }

  lemma HooksStep(s: State, e: Event)
    requires HooksOk(s) && Enabled(s, e)
    ensures HooksOk(Step(s, e))
  {
    RequestCount(s, e);
    forall r | 0 <= r < |Step(s, e).requests|
      ensures var request := Step(s, e).requests[r];
              (request.cancels ==> request.phase != Connecting) && (request.phase == Accepted ==> request.cancels)
    {
      if r < |s.requests| {
        RequestNext(s, e, r);
      }
    }
  }

  lemma {:induction false} HooksRun(s: State, es: seq<Event>)
    requires HooksOk(s) && Legal(s, es)
    ensures HooksOk(Run(s, es))
    decreases |es|
  {
    if es != [] {
      HooksStep(s, es[0]);
      HooksRun(Step(s, es[0]), es[1..]);
    }
  }

  /** Between handlers, the timeout of request `r` has expired in wait `i`. */
  predicate TimeoutExpired(s: State, r: nat, i: nat) {
    && s.stack == [] && r < |s.requests|
    && Enabled(s, Dispatch(s.requests[r].timer, i)) && s.timers[s.requests[r].timer].waits[i].phase == Expired
  }

  lemma ExpiredStep(s: State, r: nat, i: nat)
    requires Structure(s) && TimeoutsOk(s) && TimeoutExpired(s, r, i)
    ensures var t := s.requests[r].timer;
            var called := Step(s, Dispatch(t, i));
            && called.stack == [TimerCallback(t, s.timers[t].waits[i].serial, false)]
            && called.requests == s.requests && called.queues == s.queues
            && |called.timers| == |s.timers| && called.timers[t] == s.timers[t].(waits := [])
  {
    var t := s.requests[r].timer;
    assert StartedOnce(s.timers[t].waits);
    assert Take(s.timers[t].waits, i) == [];
  }

  lemma SpentReturn(s: State, t: nat, n: nat)
    requires s.stack == [TimerCallback(t, n, false)] && t < |s.timers| && s.timers[t].waits == []
    requires s.timers[t].queue == None
    ensures Enabled(s, Return)
    ensures var u := Step(s, Return);
            && u.stack == [] && u.requests == s.requests && u.queues == s.queues
            && |u.timers| == |s.timers| && u.timers[t] == s.timers[t] && Quiet(u, t)
  {
  }

  /**
   * No response handler can run in the running callback, it changes no request and no queue,
   * and timer `t` never calls back again.
   */
  ghost predicate NoEffect(s: State, called: State, t: nat, more: seq<Event>) {
    && (forall r: nat :: !Enabled(called, Respond(r))) && Enabled(called, Return)
    && var u := Step(called, Return);
      u.requests == s.requests && u.queues == s.queues && (Legal(u, more) ==> Callbacks(u, more, t) == 0)
  }

  lemma SpentCallback(s: State, called: State, r: nat, t: nat, n: nat, more: seq<Event>)
    requires called.stack == [TimerCallback(t, n, false)] && t < |called.timers|
    requires called.timers[t].waits == [] && called.timers[t].queue == None && called.timers[t].owner == Timeout(r)
    requires called.requests == s.requests && called.queues == s.queues && !Enabled(called, Respond(r))
    ensures NoEffect(s, called, t, more)
  {
    SpentReturn(called, t, n);
    var u := Step(called, Return);
    if Legal(u, more) {
      SilentRun(u, more, t, r);
    }
  }

  /** What the expired timeout of request `r` can do. */
  ghost predicate TimeoutActs(s: State, r: nat, i: nat, more: seq<Event>)
    requires TimeoutExpired(s, r, i)
  {
    var called := Step(s, Dispatch(s.requests[r].timer, i));
    && (Enabled(called, Respond(r)) <==> s.requests[r].phase == Accepted)
    && (s.requests[r].phase == Accepted ==>
          && Step(called, Respond(r)).stack != [] && Step(called, Respond(r)).stack[0] == ClientCallback(r)
          && Step(called, Respond(r)).log == called.log + [TimeoutStopped(r), HandlerRun(r)])
    && (s.requests[r].phase != Accepted ==> NoEffect(s, called, s.requests[r].timer, more))
  }

  lemma TimeoutActsFrom(s: State, r: nat, i: nat, more: seq<Event>)
    requires Structure(s) && TimeoutsOk(s) && HooksOk(s) && TimeoutExpired(s, r, i)
    ensures TimeoutActs(s, r, i, more)
  {
    var t := s.requests[r].timer;
    ExpiredStep(s, r, i);
    assert TimerOk(s.timers[t], s.serial, |s.queues|);
    var called := Step(s, Dispatch(t, i));
    if s.requests[r].phase != Accepted {
      SpentCallback(s, called, r, t, s.timers[t].waits[i].serial, more);
    }
  }

  /**
   * An expired timeout can end its request exactly if the request has been
   * accepted and is not answered. In all other phases, connecting among them,
   * it is spent without effect: the request stays as it is, and its timer never
   * calls back again.
   */
  lemma TimeoutEndsExactlyAcceptedRequests(es: seq<Event>, r: nat, i: nat, more: seq<Event>)
    requires Legal(INIT, es) && TimeoutExpired(Run(INIT, es), r, i)
    ensures TimeoutActs(Run(INIT, es), r, i, more)
  {
    DisarmedRun(INIT, es, r);
    HooksRun(INIT, es);
    TimeoutActsFrom(Run(INIT, es), r, i, more);
  }

  lemma RequestMade() returns (es: seq<Event>)
    ensures Legal(INIT, es)
    ensures var s := Run(INIT, es);
            && s.stack == [Processor(0, 0, 1), Launching(0)] && s.queues == [Queue(true, ByClient(0), 1, 1, false)]
            && s.requests == [ClientRequest(Connecting, 0, false)]
            && s.timers == [Timer(None, Timeout(0), [Wait(Armed, false, 0)])]
  {
    AppendOne(INIT, [], NewRequest(1));
    es := [] + [NewRequest(1)];
    assert Run(INIT, es).queues == [Queue(false, ByRouter, 0, 1, false)];
    AppendOne(INIT, es, BeginProcessor);
    es := es + [BeginProcessor];
    assert Run(INIT, es) == State([Queue(false, ByRouter, 1, 1, false)], [], [], [], Some(0), None, Some(0), Some(0),
                                  [Processor(0, 0, 0), Launching(0)], 0, [Launched(0, ByRouter)]);
    AppendOne(INIT, es, Request);
    es := es + [Request];
    assert Arm([], false, 0) == [Wait(Armed, false, 0)];
    assert Run(INIT, es).timers == [Timer(None, Timeout(0), [Wait(Armed, false, 0)])];
  }

  /** A timeout can expire while its request is still connecting. */
  lemma TimeoutCanExpireEarly() returns (es: seq<Event>)
    ensures Legal(INIT, es) && TimeoutExpired(Run(INIT, es), 0, 0) && Run(INIT, es).requests[0].phase == Connecting
  {
    es := RequestMade();
    AppendOne(INIT, es, Return);
    es := es + [Return];
    AppendOne(INIT, es, EndLaunch);
    es := es + [EndLaunch];
    AppendOne(INIT, es, Elapse(0, 0));
    es := es + [Elapse(0, 0)];
  }

  /** Nobody can start the timer of a client request but `makeRequest`. */
  lemma {:induction false} SilentRun(s: State, es: seq<Event>, t: nat, r: nat)
    requires Legal(s, es) && Quiet(s, t) && s.timers[t].owner == Timeout(r)
    ensures Callbacks(s, es, t) == 0
    decreases |es|
  {
    if es != [] {
      QuietStep(s, es[0], t);
      TimerStep(s, es[0], t);
      SilentRun(Step(s, es[0]), es[1..], t, r);
    }
  }

  // ---------------------------------------------------------------------------
  // What the application makes
  // ---------------------------------------------------------------------------

  /** A timer is bound to the queue of the request during which it is made. */
  lemma TimerForItsRequest(es: seq<Event>)
    requires Legal(INIT, es) && Enabled(Run(INIT, es), NewTimer)
    ensures var s := Run(INIT, es);
            s.queues != [] && Step(s, NewTimer).timers == s.timers + [Timer(Some(|s.queues| - 1), Application, [])]
  {
    StructureRun(INIT, es);
    TimersGrow(Run(INIT, es), NewTimer);
  }

  /** A new client request is guarded by a timer of its own, armed once, which has no queue. */
  lemma RequestIsGuarded(es: seq<Event>)
    requires Legal(INIT, es) && Enabled(Run(INIT, es), Request)
    ensures var s := Run(INIT, es);
            var u := Step(s, Request);
            && |u.requests| == |s.requests| + 1 && |u.timers| == |s.timers| + 1
            && u.requests[|s.requests|] == ClientRequest(Connecting, |s.timers|, false)
            && u.timers[|s.timers|] == Timer(None, Timeout(|s.requests|), [Wait(Armed, false, s.serial)])
  {
    StructureRun(INIT, es);
    RequestGuarded(Run(INIT, es));
  }

  lemma RequestGuarded(s: State)
    requires Structure(s) && Enabled(s, Request)
    ensures var u := Step(s, Request);
            && |u.requests| == |s.requests| + 1 && |u.timers| == |s.timers| + 1
            && u.requests[|s.requests|] == ClientRequest(Connecting, |s.timers|, false)
            && u.timers[|s.timers|] == Timer(None, Timeout(|s.requests|), [Wait(Armed, false, s.serial)])
  {
    TimersGrow(s, Request);
    RequestOfRequest(s);
  }
}
