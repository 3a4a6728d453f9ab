/**
 * Timers refer to the queue of the request in which they were made. That queue is
 * destroyed when the next request comes in. Here a step that would stop or launch
 * it has no effect; in the program it uses an object that no longer exists.
 */
module GoneQueues {
  import opened Options
  import opened Timers
  import opened Suspension
  import opened SuspensionInvariant
  import opened TimerRuns
  import opened StoppedTimers

  /** The queue of timer `t` is gone. */
  predicate Orphaned(s: State, t: nat) {
    t < |s.timers| && s.timers[t].queue.Some? && !Current(s, s.timers[t].queue)
  }

  /** The step stops or launches a queue that is gone. */
  predicate UsesGoneQueue(s: State, e: Event)
    requires Enabled(s, e)
  {
    match e
    case StartTimer(t, _) => Orphaned(s, t)
    case StopTimer(t) => Orphaned(s, t)
    case Return => s.stack[0].TimerCallback? && Orphaned(s, s.stack[0].timer)
    case _ => false
  }

  predicate RunUsesGoneQueue(s: State, es: seq<Event>)
    requires Legal(s, es)
    decreases |es|
  {
    es != [] && (UsesGoneQueue(s, es[0]) || RunUsesGoneQueue(Step(s, es[0]), es[1..]))
  }

  /** Timer `t` has a queue, and a wait that has not been cancelled. */
  predicate DueWithQueue(s: State, t: nat) {
    && t < |s.timers| && s.timers[t].queue.Some?
    && exists i :: 0 <= i < |s.timers[t].waits| && s.timers[t].waits[i].phase != Cancelled
  }

  /** The application leaves the timers of earlier requests alone, and none is due when a request comes in. */
  predicate Careful(s: State, e: Event) {
    match e
    case StartTimer(t, _) => !Orphaned(s, t)
    case StopTimer(t) => !Orphaned(s, t)
    case NewRequest(_) => forall t: nat :: t < |s.timers| ==> !DueWithQueue(s, t)
    case _ => true
  }

  predicate CarefulRun(s: State, es: seq<Event>)
    requires Legal(s, es)
    decreases |es|
  {
    es == [] || (Careful(s, es[0]) && CarefulRun(Step(s, es[0]), es[1..]))
  }

  /** Nothing is going to be heard of timer `t`. */
  ghost predicate Still(s: State, t: nat) {
    && t < |s.timers|
    && (forall i :: 0 <= i < |s.timers[t].waits| ==> s.timers[t].waits[i].phase == Cancelled)
    && (forall f :: f in s.stack && f.TimerCallback? ==> f.timer != t)
  }

  ghost predicate OrphansStill(s: State) {
    forall t: nat :: Orphaned(s, t) ==> Still(s, t)
  }

  lemma StillStep(s: State, e: Event, t: nat)
    requires Enabled(s, e) && Still(s, t) && (e.StartTimer? ==> e.t != t)
    ensures Still(Step(s, e), t)
  {
    TimerStep(s, e, t);
    StillWaits(s, e, t);
    forall f | f in Step(s, e).stack && f.TimerCallback?
      ensures f.timer != t
    {
      FramesNext(s, e, f);
    }
  }

  lemma StillWaits(s: State, e: Event, t: nat)
    requires Enabled(s, e) && Still(s, t) && (e.StartTimer? ==> e.t != t)
    ensures forall i :: 0 <= i < |NextWaits(s, e, t)| ==> NextWaits(s, e, t)[i].phase == Cancelled
  {
    if e == Return {
      assert s.stack[0] in s.stack;
    }
  }

  /** A new timer gets the current queue or none. */
  lemma NewTimerQueue(s: State, e: Event, t: nat)
    requires Structure(s) && Enabled(s, e) && |s.timers| <= t < |Step(s, e).timers|
    ensures !Orphaned(Step(s, e), t)
  {
    TimersGrow(s, e);
    QueuesKept(s, e);
  }

  lemma OrphansStep(s: State, e: Event)
    requires Structure(s) && OrphansStill(s) && Enabled(s, e) && Careful(s, e)
    ensures OrphansStill(Step(s, e)) && !UsesGoneQueue(s, e)
  {
    var u := Step(s, e);
    QueuesKept(s, e);
    forall t: nat | Orphaned(u, t)
      ensures Still(u, t)
    {
      if t < |s.timers| {
        TimerStep(s, e, t);
        if e.NewRequest? {
          assert !DueWithQueue(s, t);
        }
        StillStep(s, e, t);
      } else {
        NewTimerQueue(s, e, t);
      }
    }
    if e == Return {
      assert s.stack[0] in s.stack;
    }
  }

  lemma {:induction false} CarefulFrom(s: State, es: seq<Event>)
    requires Structure(s) && OrphansStill(s) && Legal(s, es) && CarefulRun(s, es)
    ensures !RunUsesGoneQueue(s, es)
    decreases |es|
  {
    if es != [] {
      StructureStep(s, es[0]);
      OrphansStep(s, es[0]);
      CarefulFrom(Step(s, es[0]), es[1..]);
    }
  }

  /** A careful run never uses a queue that is gone. */
  lemma CarefulRunsAreSafe(es: seq<Event>)
    requires Legal(INIT, es) && CarefulRun(INIT, es)
    ensures !RunUsesGoneQueue(INIT, es)
  {
    CarefulFrom(INIT, es);
  }

  // ---------------------------------------------------------------------------
  // One request that is not careful
  // ---------------------------------------------------------------------------

  /** During one request, the application leaves the timers of earlier requests alone. */
  predicate LeavesAlone(s: State, es: seq<Event>)
    requires Legal(s, es)
    decreases |es|
  {
    es == [] || (!es[0].NewRequest? && Careful(s, es[0]) && LeavesAlone(Step(s, es[0]), es[1..]))
  }

  lemma {:induction false} LeavingAloneIsCareful(s: State, es: seq<Event>)
    requires Legal(s, es) && LeavesAlone(s, es)
    ensures CarefulRun(s, es)
    decreases |es|
  {
    if es != [] {
      LeavingAloneIsCareful(Step(s, es[0]), es[1..]);
    }
  }

  /** In the run `es` of one request, a queue that is gone is used although the application leaves its timers alone. */
  predicate GoesWrong(s: State, es: seq<Event>) {
    Legal(s, es) && LeavesAlone(s, es) && RunUsesGoneQueue(s, es)
  }

  lemma {:induction false} GoesWrongAfter(s: State, before: seq<Event>, es: seq<Event>) returns (all: seq<Event>)
    requires Legal(s, before) && OnlyUnwinds(before) && GoesWrong(Run(s, before), es)
    ensures GoesWrong(s, all)
    decreases |before|
  {
    if before == [] {
      all := es;
    } else {
      assert before[0] in before && forall f :: f in before[1..] ==> f in before;
      var rest := GoesWrongAfter(Step(s, before[0]), before[1..], es);
      all := GoesWrongFirst(s, before[0], rest);
    }
  }

  lemma GoesWrongFirst(s: State, e: Event, rest: seq<Event>) returns (all: seq<Event>)
    requires Enabled(s, e) && !e.NewRequest? && Careful(s, e) && GoesWrong(Step(s, e), rest)
    ensures GoesWrong(s, all)
  {
    all := [e] + rest;
    assert all[1..] == rest;
  }

  lemma DispatchGoesWrong(s: State, t: nat) returns (es: seq<Event>)
    requires Structure(s) && s.stack == [] && Orphaned(s, t) && HasExpired(s, t)
    ensures GoesWrong(s, es)
  {
    var i :| 0 <= i < |s.timers[t].waits| && s.timers[t].waits[i].phase == Expired;
    var called := Step(s, Dispatch(t, i));
    assert [Return][1..] == [];
    assert UsesGoneQueue(called, Return);
    assert GoesWrong(called, [Return]);
    es := GoesWrongFirst(s, Dispatch(t, i), [Return]);
  }

  lemma ExpiredGoesWrong(s: State, t: nat) returns (es: seq<Event>)
    requires Structure(s) && Orphaned(s, t) && HasExpired(s, t)
    ensures GoesWrong(s, es)
  {
    var before := Unwind(s, t);
    var rest := DispatchGoesWrong(Run(s, before), t);
    es := GoesWrongAfter(s, before, rest);
  }

  lemma DueGoesWrong(s: State, t: nat) returns (es: seq<Event>)
    requires Structure(s) && Orphaned(s, t) && DueWithQueue(s, t)
    ensures GoesWrong(s, es)
  {
    var i :| 0 <= i < |s.timers[t].waits| && s.timers[t].waits[i].phase != Cancelled;
    if s.timers[t].waits[i].phase == Expired {
      es := ExpiredGoesWrong(s, t);
    } else {
      StructureStep(s, Elapse(t, i));
      var u := Step(s, Elapse(t, i));
      assert u.timers[t].waits[i].phase == Expired;
      var rest := ExpiredGoesWrong(u, t);
      es := GoesWrongFirst(s, Elapse(t, i), rest);
    }
  }

  lemma NewRequestGoesWrongFrom(s: State, size: nat)
    requires Structure(s) && OrphansStill(s) && s.stack == []
    ensures (exists es :: GoesWrong(Step(s, NewRequest(size)), es)) <==> exists t: nat :: DueWithQueue(s, t)
  {
    var u := Step(s, NewRequest(size));
    StructureStep(s, NewRequest(size));
    if t: nat :| DueWithQueue(s, t) {
      assert TimerOk(s.timers[t], s.serial, |s.queues|);
      var es := DueGoesWrong(u, t);
    } else {
      OrphansStep(s, NewRequest(size));
      forall es | Legal(u, es) && LeavesAlone(u, es)
        ensures !RunUsesGoneQueue(u, es)
      {
        LeavingAloneIsCareful(u, es);
        CarefulFrom(u, es);
      }
    }
  }

  lemma {:induction false} OrphansRun(s: State, es: seq<Event>)
    requires Structure(s) && OrphansStill(s) && Legal(s, es) && CarefulRun(s, es)
    ensures Structure(Run(s, es)) && OrphansStill(Run(s, es))
    decreases |es|
  {
    if es != [] {
      StructureStep(s, es[0]);
      OrphansStep(s, es[0]);
      OrphansRun(Step(s, es[0]), es[1..]);
    }
  }

  /**
   * When a request comes in after a careful run, a queue that is gone can be used
   * during it exactly if at that moment some timer with a queue has a wait that
   * is armed or has expired.
   */
  lemma GoneQueueUsedExactly(es: seq<Event>, size: nat)
    requires Legal(INIT, es) && CarefulRun(INIT, es) && Run(INIT, es).stack == []
    ensures var s := Run(INIT, es);
            (exists more :: GoesWrong(Step(s, NewRequest(size)), more)) <==> exists t: nat :: DueWithQueue(s, t)
  {
    OrphansRun(INIT, es);
    NewRequestGoesWrongFrom(Run(INIT, es), size);
  }

  lemma {:induction false} OneRequestIsCareful(s: State, es: seq<Event>)
    requires Structure(s) && Legal(s, es)
    requires (forall t: nat :: !Orphaned(s, t)) && (forall e :: e in es ==> !e.NewRequest?)
    ensures CarefulRun(s, es)
    decreases |es|
  {
    if es != [] {
      var u := Step(s, es[0]);
      assert es[0] in es && forall e :: e in es[1..] ==> e in es;
      StructureStep(s, es[0]);
      QueuesKept(s, es[0]);
      forall t: nat
        ensures !Orphaned(u, t)
      {
        if t < |s.timers| {
          TimerStep(s, es[0], t);
          assert !Orphaned(s, t) && !es[0].NewRequest?;
        } else if t < |u.timers| {
          NewTimerQueue(s, es[0], t);
        }
      }
      OneRequestIsCareful(u, es[1..]);
    }
  }

  lemma RepliedWithTimer() returns (es: seq<Event>)
    ensures Legal(INIT, es) && es == [NewRequest(1), BeginProcessor, NewTimer, StartTimer(0, false), Reply,
            Return, EndLaunch]
    ensures Run(INIT, es).stack == [] && DueWithQueue(Run(INIT, es), 0)
  {
    es := TimerStarted(false);
    AppendOne(INIT, es, Reply);
    es := es + [Reply];
    AppendOne(INIT, es, Return);
    es := es + [Return];
    AppendOne(INIT, es, EndLaunch);
    es := es + [EndLaunch];
    assert Run(INIT, es).timers[0].waits[0].phase == Armed;
  }

  lemma FirstRequestIsCareful(es: seq<Event>)
    requires Legal(INIT, es) && es != [] && es[0].NewRequest? && (forall e :: e in es[1..] ==> !e.NewRequest?)
    ensures CarefulRun(INIT, es)
  {
    StructureStep(INIT, es[0]);
    OneRequestIsCareful(Step(INIT, es[0]), es[1..]);
  }

  /** Such a moment is reached when a processor replies while its timer is running. */
  lemma TimerOutlivesItsRequest() returns (es: seq<Event>)
    ensures Legal(INIT, es) && CarefulRun(INIT, es) && Run(INIT, es).stack == [] && DueWithQueue(Run(INIT, es), 0)
  {
    es := RepliedWithTimer();
    FirstRequestIsCareful(es);
  }
}
