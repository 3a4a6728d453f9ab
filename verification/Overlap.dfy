/**
 * Exactly when a second operation of a request lets a processor begin while an
 * operation is still outstanding, and what stopping a timer does.
 */
module Overlap {
  import opened Options
  import opened Timers
  import opened Suspension
  import opened SuspensionInvariant
  import opened Resumption
  import opened TimerRuns
  import opened NonOverlap
  import opened Resuming

  ghost predicate SomethingOwed(s: State) {
    exists c :: Owed(s, c)
  }

  /** A run without further calls of the application lets a processor begin while an operation is owed. */
  ghost predicate Overtakes(s: State, es: seq<Event>) {
    && Legal(s, es) && OnlyIdles(es)
    && Enabled(Run(s, es), BeginProcessor) && SomethingOwed(Run(s, es))
  }

  ghost predicate CanOverlap(s: State) {
    exists es :: Overtakes(s, es)
  }

  lemma OvertakesNext(s: State, e: Event, rest: seq<Event>) returns (es: seq<Event>)
    requires Enabled(s, e) && Idles(e) && Overtakes(Step(s, e), rest)
    ensures Overtakes(s, es)
  {
    PrependOne(s, e, rest);
    es := [e] + rest;
  }

  lemma ReachingOvertakes(s: State, es: seq<Event>, d: Cause)
    requires MoreToDo(s) && Firm(s, d) && Reaches(s, es, d)
    ensures Overtakes(s, es)
  {
    FirmIsOwed(Run(s, es), d);
  }

  // ---------------------------------------------------------------------------
  // Two operations at once
  // ---------------------------------------------------------------------------

  /** What holds of every state, when the current queue is stopped and has more to run. */
  predicate Waits(s: State) {
    Structure(s) && RunningGone(s) && HandlersAtBottom(s) && Stopped(s) && MoreToDo(s)
  }

  /** The callback `f` of a periodic timer of the current request is running. */
  predicate InCallback(s: State, f: Frame) {
    && f in s.stack && f.TimerCallback? && f.periodic
    && f.timer < |s.timers| && Current(s, s.timers[f.timer].queue)
  }

  lemma InCallbackIsOwed(s: State, f: Frame)
    requires InCallback(s, f)
    ensures SomethingOwed(s)
  {
    assert Owed(s, ByTimer(f.timer, f.serial));
  }

  lemma InCallbackNext(s: State, e: Event, f: Frame)
    requires Waits(s) && InCallback(s, f) && f != s.stack[0]
    requires Enabled(s, e) && e == if s.stack[0].Launching? then EndLaunch else Return
    ensures var u := Step(s, e);
            InCallback(u, f) && (Resumed(u) || (Stopped(u) && u.stack == s.stack[1..])) && MoreToDo(u)
  {
    CallbackKept(s, e, f);
    EbbKeepsWork(s, e);
    TimerStep(s, e, f.timer);
  }

  lemma FirmNext(s: State, e: Event, d: Cause)
    requires Waits(s) && Enabled(s, e) && (e == Return || e == EndLaunch) && Firm(s, d) && !Repeats(s, d)
    ensures Firm(Step(s, e), d) && !Repeats(Step(s, e), d)
  {
    FirmKept(s, e, d);
    ReadyDoesNotRepeat(s, e, d);
  }

  /** What the next return leads to: the queue is resumed, or all is as before. */
  lemma NextReturn(s: State, e: Event, f: Frame, d: Cause)
    requires Waits(s) && InCallback(s, f) && f != s.stack[0] && Firm(s, d) && !Repeats(s, d)
    requires Enabled(s, e) && e == if s.stack[0].Launching? then EndLaunch else Return
    ensures Overtakes(Step(s, e), [])
         || (Waits(Step(s, e)) && InCallback(Step(s, e), f) && Firm(Step(s, e), d) && !Repeats(Step(s, e), d)
             && |Step(s, e).stack| < |s.stack|)
  {
    InCallbackNext(s, e, f);
    InvariantsStep(s, e);
    FirmNext(s, e, d);
    InCallbackIsOwed(Step(s, e), f);
  }

  /** The callback of a periodic timer runs until its return arms the timer again. */
  lemma PeriodicCallbackOvertaken(s: State, f: Frame, d: Cause) returns (es: seq<Event>)
    requires Waits(s) && InCallback(s, f) && Firm(s, d) && !Repeats(s, d)
    ensures Overtakes(s, es)
    decreases |s.stack|
  {
    assert s.stack[0] in s.stack;
    if s.stack[0] == f {
      es := RearmedOvertaken(s, f.timer, d);
    } else {
      var e := if s.stack[0].Launching? then EndLaunch else Return;
      NextReturnEnabled(s, e);
      NextReturn(s, e, f, d);
      es := [];
      if !Overtakes(Step(s, e), []) {
        es := PeriodicCallbackOvertaken(Step(s, e), f, d);
      }
      es := OvertakesNext(s, e, es);
    }
  }

  lemma CallbackKept(s: State, e: Event, f: Frame)
    requires Waits(s) && Enabled(s, e) && f.TimerCallback? && f in s.stack && f != s.stack[0]
    requires e == if s.stack[0].Launching? then EndLaunch else Return
    ensures var u := Step(s, e);
            f in u.stack && (Resumed(u) || (Stopped(u) && u.stack == s.stack[1..]))
  {
    if e == Return {
      ReturnLaunches(s);
      ReturnKeepsFrame(s, f);
    } else {
      assert f in s.stack[1..];
    }
  }

  lemma RearmedOvertaken(s: State, t: nat, d: Cause) returns (es: seq<Event>)
    requires Waits(s) && Enabled(s, Return) && IsRearm(s, Return) && s.stack[0].timer == t
    requires Current(s, s.timers[t].queue) && Firm(s, d) && !Repeats(s, d)
    ensures Overtakes(s, es)
  {
    var u, c, i := Step(s, Return), ByTimer(t, s.serial), |s.timers[t].waits|;
    RearmKeeps(s, t, d);
    es := ArmedOvertaken(u, c, i, d);
    es := OvertakesNext(s, Return, es);
  }

  lemma RearmKeeps(s: State, t: nat, d: Cause)
    requires Waits(s) && Enabled(s, Return) && IsRearm(s, Return) && s.stack[0].timer == t
    requires Current(s, s.timers[t].queue) && Firm(s, d) && !Repeats(s, d)
    ensures Waits(Step(s, Return)) && Firm(Step(s, Return), d) && !Repeats(Step(s, Return), d)
    ensures IsArmed(Step(s, Return), ByTimer(t, s.serial), |s.timers[t].waits|) && d != ByTimer(t, s.serial)
  {
    InvariantsStep(s, Return);
    EbbKeepsWork(s, Return);
    FirmKept(s, Return, d);
    ReadyDoesNotRepeat(s, Return, d);
    if d.ByTimer? {
      ReadyIsOld(s, d);
    }
    RearmedIsArmed(s, t);
  }

  /** Once the wait `c` has expired, the end of operation `d` cannot take it back. */
  lemma ArmedOvertaken(s: State, c: Cause, i: nat, d: Cause) returns (es: seq<Event>)
    requires Waits(s) && IsArmed(s, c, i) && Firm(s, d) && !Repeats(s, d) && c != d
    ensures Overtakes(s, es)
  {
    var e := ExpireWait(s, c, i);
    FirmKept(s, e, d);
    es := ReadyResumes(Step(s, e), d, c);
    ReachingOvertakes(Step(s, e), es, c);
    es := OvertakesNext(s, e, es);
  }

  lemma RearmedIsArmed(s: State, t: nat)
    requires Waits(s) && Enabled(s, Return) && IsRearm(s, Return) && s.stack[0].timer == t
    requires Current(s, s.timers[t].queue)
    ensures IsArmed(Step(s, Return), ByTimer(t, s.serial), |s.timers[t].waits|) && Stopped(Step(s, Return))
  {
    TimerStep(s, Return, t);
    ReturnKeepsWork(s);
  }

  /** Two operations, one of which does not repeat: it lets a processor begin while the other is owed. */
  lemma BothReadyOvertake(s: State, c: Cause, d: Cause) returns (es: seq<Event>)
    requires Waits(s) && (Firm(s, c) || Runs(s, c)) && Firm(s, d) && c != d
    requires !Repeats(s, c) || !Repeats(s, d)
    ensures Overtakes(s, es)
  {
    if !Repeats(s, c) {
      es := ReadyResumes(s, c, d);
      ReachingOvertakes(s, es, d);
    } else if Firm(s, c) {
      es := ReadyResumes(s, d, c);
      ReachingOvertakes(s, es, c);
    } else {
      PeriodicRuns(s, c);
      es := PeriodicCallbackOvertaken(s, TimerCallback(c.timer, c.serial, true), d);
    }
  }

  lemma PeriodicRuns(s: State, c: Cause)
    requires Structure(s) && RunningGone(s) && HandlersAtBottom(s) && Runs(s, c) && Repeats(s, c)
    ensures TimerCallback(c.timer, c.serial, true) in s.stack
  {
    assert Gone(s.timers[c.timer].waits, c.serial);
  }

  lemma WaitsAfterExpiry(s: State, c: Cause, d: Cause, i: nat) returns (e: Event)
    requires Waits(s) && IsArmed(s, c, i) && Firm(s, d) && c != d && (!Repeats(s, c) || !Repeats(s, d))
    ensures e == Elapse(c.timer, i) && Enabled(s, e) && Waits(Step(s, e))
    ensures Firm(Step(s, e), c) && Firm(Step(s, e), d) && (!Repeats(Step(s, e), c) || !Repeats(Step(s, e), d))
  {
    e := ExpireWait(s, c, i);
    FirmKept(s, e, d);
  }

  lemma FirmAndOwedOvertake(s: State, c: Cause, d: Cause) returns (es: seq<Event>)
    requires Waits(s) && Owed(s, c) && Firm(s, d) && c != d && (!Repeats(s, c) || !Repeats(s, d))
    ensures Overtakes(s, es)
  {
    var i := OwedCases(s, c);
    if Firm(s, c) || Runs(s, c) {
      es := BothReadyOvertake(s, c, d);
    } else {
      var e := WaitsAfterExpiry(s, c, d, i);
      es := BothReadyOvertake(Step(s, e), c, d);
      es := OvertakesNext(s, e, es);
    }
  }

  // ---------------------------------------------------------------------------
  // Starting another operation
  // ---------------------------------------------------------------------------

  /** The operation that step `e` starts. */
  function Started(s: State, e: Event): Cause
    requires IsStart(e)
  {
    if e.StartTimer? then ByTimer(e.t, s.serial) else if e == Post then ByTask(|s.tasks|) else ByClient(|s.requests|)
  }

  /** The step starts an operation of the current request. */
  predicate StartsOperation(s: State, e: Event) {
    IsStart(e) && Enabled(s, e) && (e.StartTimer? ==> Current(s, s.timers[e.t].queue))
  }

  /**
   * While operation `c` is owed, the step starts another operation without harm:
   * it replaces the armed wait that is `c`, or both are periodic timers.
   */
  predicate Harmless(s: State, e: Event, c: Cause) {
    e.StartTimer? && (CancelsOperation(s, e.t, c) || (Repeats(s, c) && e.periodic))
  }

  /** A start keeps everything there is, but for the flag of the queue and the waits of timers. */
  predicate Extends(s: State, u: State) {
    && |u.queues| == |s.queues| && (MoreToDo(s) ==> MoreToDo(u))
    && |u.tasks| >= |s.tasks| && u.tasks[..|s.tasks|] == s.tasks
    && |u.requests| >= |s.requests| && u.requests[..|s.requests|] == s.requests
    && |u.timers| >= |s.timers| && forall t :: 0 <= t < |s.timers| ==> u.timers[t].queue == s.timers[t].queue
  }

  lemma TimerStartExtends(s: State, t: nat, periodic: bool)
    requires t < |s.timers|
    ensures Extends(s, TimerStart(s, t, periodic))
  {
  }

  lemma PostExtends(s: State)
    ensures Extends(s, PostTask(s))
  {
  }

  lemma MakeRequestExtends(s: State)
    ensures Extends(s, MakeRequest(s))
  {
    var r := |s.requests|;
    var stopped := Stop(s, s.clientQueue, ByClient(r));
    var t := EmplaceTimer(stopped, s.privateQueue, Timeout(r));
    var u := t.(requests := s.requests + [ClientRequest(Connecting, |s.timers|, false)]);
    TimerStartExtends(u, |s.timers|, false);
  }

  lemma StartKeepsQueues(s: State, e: Event)
    requires Enabled(s, e) && IsStart(e)
    ensures Extends(s, Step(s, e))
  {
    match e {
      case StartTimer(t, periodic) => TimerStartExtends(s, t, periodic);
      case Post => PostExtends(s);
      case Request => MakeRequestExtends(s);
    }
  }

  /** The operation is firm at once, or a wait that is armed. */
  lemma StartedIsOwed(s: State, e: Event)
    requires Structure(s) && RunningGone(s) && StartsOperation(s, e)
    ensures var u := Step(s, e);
            && Stopped(u) && (Repeats(u, Started(s, e)) ==> e.StartTimer? && e.periodic)
            && if e.StartTimer? then IsArmed(u, Started(s, e), |s.timers[e.t].waits|) else Firm(u, Started(s, e))
  {
    match e {
      case StartTimer(_, _) => StartedTimer(s, e);
      case Post => StartedTask(s);
      case Request => StartedRequest(s);
    }
  }

  lemma StartedTimer(s: State, e: Event)
    requires Structure(s) && RunningGone(s) && StartsOperation(s, e) && e.StartTimer?
    ensures var u := Step(s, e);
            && Stopped(u) && IsArmed(u, Started(s, e), |s.timers[e.t].waits|)
            && (Repeats(u, Started(s, e)) ==> e.periodic)
  {
    assert TimerOk(s.timers[e.t], s.serial, |s.queues|);
    TimerStep(s, e, e.t);
    NewWaitIsNew(s, e);
    StoppedByStart(s, e);
  }

  lemma StoppedByStart(s: State, e: Event)
    requires Structure(s) && StartsOperation(s, e) && e.StartTimer?
    ensures Stopped(Step(s, e)) && |Step(s, e).queues| == |s.queues|
  {
  }

  lemma NewWaitIsNew(s: State, e: Event)
    requires Structure(s) && RunningGone(s) && StartsOperation(s, e) && e.StartTimer?
    ensures Repeats(Step(s, e), Started(s, e)) ==> e.periodic
  {
    assert TimerOk(s.timers[e.t], s.serial, |s.queues|);
    TimerStep(s, e, e.t);
    FramesNext(s, e, TimerCallback(e.t, s.serial, true));
    CancelOk(s.timers[e.t].waits, s.serial);
  }

  lemma StartedTask(s: State)
    requires Structure(s) && StartsOperation(s, Post)
    ensures Stopped(Step(s, Post)) && Firm(Step(s, Post), ByTask(|s.tasks|))
  {
  }

  lemma StartedRequest(s: State)
    requires Structure(s) && StartsOperation(s, Request)
    ensures Stopped(Step(s, Request)) && Firm(Step(s, Request), ByClient(|s.requests|))
  {
    assert Current(s, s.clientQueue);
  }

  lemma StartKeepsOwed(s: State, e: Event, c: Cause)
    requires Structure(s) && RunningGone(s) && StartsOperation(s, e) && Owed(s, c)
    requires e.StartTimer? ==> !CancelsOperation(s, e.t, c)
    ensures Owed(Step(s, e), c) && c != Started(s, e) && (Repeats(Step(s, e), c) ==> Repeats(s, c))
  {
    StartKeepsQueues(s, e);
    match c {
      case ByTimer(_, _) => StartKeepsWait(s, e, c);
      case ByTask(j) => assert Step(s, e).tasks[..|s.tasks|][j] == s.tasks[j];
      case ByClient(r) =>
        assert Step(s, e).requests[..|s.requests|][r] == s.requests[r];
        if ClientCallback(r) in s.stack {
          StartKeepsFrame(s, e, ClientCallback(r));
        }
    }
  }

  lemma StartKeepsFrame(s: State, e: Event, f: Frame)
    requires Enabled(s, e) && IsStart(e) && f in s.stack && !f.Processor?
    ensures f in Step(s, e).stack
  {
    match e {
      case StartTimer(t, periodic) => ChargeKeepsFrame(TimerStart(s, t, periodic), f);
      case Post => ChargeKeepsFrame(PostTask(s), f);
      case Request => ChargeKeepsFrame(MakeRequest(s), f);
    }
  }

  lemma ChargeKeepsFrame(s: State, f: Frame)
    requires f in s.stack && !f.Processor?
    ensures f in Charge(s).stack
  {
    if Charge(s).stack != s.stack {
      assert f in s.stack[1..] && Charge(s).stack[1..] == s.stack[1..];
    }
  }

  lemma StartKeepsWait(s: State, e: Event, c: Cause)
    requires Structure(s) && RunningGone(s) && StartsOperation(s, e) && Owed(s, c) && c.ByTimer?
    requires e.StartTimer? ==> !CancelsOperation(s, e.t, c)
    ensures Owed(Step(s, e), c) && c.serial < s.serial && (Repeats(Step(s, e), c) ==> Repeats(s, c))
  {
    assert TimerOk(s.timers[c.timer], s.serial, |s.queues|);
    TimerStep(s, e, c.timer);
    StartKeepsQueues(s, e);
    StartKeepsDue(s, e, c);
    FramesNext(s, e, TimerCallback(c.timer, c.serial, true));
    if !HasPeriodic(s.timers[c.timer].waits, c.serial) {
      StartMakesNonePeriodic(s, e, c);
    }
  }

  lemma StartMakesNonePeriodic(s: State, e: Event, c: Cause)
    requires Enabled(s, e) && IsStart(e) && c.ByTimer? && c.timer < |s.timers| && c.serial < s.serial
    requires !HasPeriodic(s.timers[c.timer].waits, c.serial)
    ensures !HasPeriodic(NextWaits(s, e, c.timer), c.serial)
  {
  }

  lemma RestartKeepsExpired(waits: seq<Wait>, n: nat, periodic: bool, serial: nat)
    requires Due(waits, n) && !exists i :: 0 <= i < |waits| && waits[i].serial == n && waits[i].phase == Armed
    ensures Due(Arm(waits, periodic, serial), n)
  {
    assert ExpiredWait(waits, n);
    ExpiredKept(waits, n);
  }

  lemma StartKeepsDueWait(s: State, e: Event, c: Cause)
    requires Enabled(s, e) && IsStart(e) && c.ByTimer? && c.timer < |s.timers| && Due(s.timers[c.timer].waits, c.serial)
    requires e.StartTimer? ==> !CancelsOperation(s, e.t, c)
    ensures Due(NextWaits(s, e, c.timer), c.serial)
  {
    if e.StartTimer? && e.t == c.timer {
      RestartKeepsExpired(s.timers[c.timer].waits, c.serial, e.periodic, s.serial);
    }
  }

  lemma StartKeepsDue(s: State, e: Event, c: Cause)
    requires StartsOperation(s, e) && Owed(s, c) && c.ByTimer?
    requires e.StartTimer? ==> !CancelsOperation(s, e.t, c)
    ensures Due(NextWaits(s, e, c.timer), c.serial) || CallbackOn(Step(s, e).stack, c.timer, c.serial)
  {
    if Due(s.timers[c.timer].waits, c.serial) {
      StartKeepsDueWait(s, e, c);
    } else {
      var f := TimerCallback(c.timer, c.serial, TimerCallback(c.timer, c.serial, true) in s.stack);
      StartKeepsFrame(s, e, f);
    }
  }

  /** Unless it is harmless, a second operation lets a processor begin while one of the two is owed. */
  lemma HarmfulStartOverlaps(s: State, e: Event, c: Cause) returns (es: seq<Event>)
    requires Orderly(s) && MoreToDo(s) && Owed(s, c) && StartsOperation(s, e) && !Harmless(s, e, c)
    ensures Overtakes(Step(s, e), es)
  {
    var u, d := Step(s, e), Started(s, e);
    InvariantsStep(s, e);
    StartKeepsQueues(s, e);
    StartedIsOwed(s, e);
    StartKeepsOwed(s, e, c);
    if e.StartTimer? {
      es := ArmedAndOwedOvertake(u, c, d, |s.timers[e.t].waits|);
    } else {
      es := FirmAndOwedOvertake(u, c, d);
    }
  }

  lemma ArmedAndOwedOvertake(s: State, c: Cause, d: Cause, i: nat) returns (es: seq<Event>)
    requires Waits(s) && Owed(s, c) && IsArmed(s, d, i) && c != d && (!Repeats(s, c) || !Repeats(s, d))
    ensures Overtakes(s, es)
  {
    var e := ExpireWait(s, d, i);
    OwedAfterExpiry(s, e, c);
    es := FirmAndOwedOvertake(Step(s, e), c, d);
    es := OvertakesNext(s, e, es);
  }

  lemma OwedAfterExpiry(s: State, e: Event, c: Cause)
    requires Structure(s) && Enabled(s, e) && e.Elapse? && Owed(s, c)
    ensures Owed(Step(s, e), c)
  {
    ExpireOk(s.timers[e.t].waits, e.i, s.serial);
  }

  lemma {:induction false} IdlingIsDisciplined(s: State, es: seq<Event>)
    requires Legal(s, es) && OnlyIdles(es)
    ensures DisciplinedRun(s, es)
    decreases |es|
  {
    if es != [] {
      assert es[0] in es && forall e :: e in es[1..] ==> e in es;
      IdlingIsDisciplined(Step(s, es[0]), es[1..]);
    }
  }

  /** A wait that replaces the one the queue waits for is harmless. */
  lemma ReplacementIsHarmless(s: State, e: Event, c: Cause)
    requires Orderly(s) && StoppedBy(s, c) && StartsOperation(s, e) && e.StartTimer? && CancelsOperation(s, e.t, c)
    ensures !CanOverlap(Step(s, e))
  {
    var u := Step(s, e);
    OrderlyStep(s, e);
    forall es | Legal(u, es) && OnlyIdles(es) && Enabled(Run(u, es), BeginProcessor)
      ensures !SomethingOwed(Run(u, es))
    {
      IdlingIsDisciplined(u, es);
      OrderlyRun(u, es);
      forall d
        ensures !Owed(Run(u, es), d)
      {
        BeginsUndisturbed(Run(u, es), d);
      }
    }
  }

  /** Two periodic timers never resume the queue. */
  lemma PeriodicIsHarmless(s: State, e: Event, c: Cause)
    requires Orderly(s) && StoppedBy(s, c) && StartsOperation(s, e)
    requires e.StartTimer? && Repeats(s, c) && e.periodic && !CancelsOperation(s, e.t, c)
    ensures !CanOverlap(Step(s, e))
  {
    var u := Step(s, e);
    InvariantsStep(s, e);
    StoppedByStart(s, e);
    forall x | Owed(u, x)
      ensures Repeats(u, x)
    {
      OwedRepeats(s, e, c, x);
    }
    ResumesExactlyFrom(u);
    forall es | Legal(u, es) && OnlyIdles(es)
      ensures !Enabled(Run(u, es), BeginProcessor)
    {
      StructureRun(u, es);
      StoppedBeginsNothing(Run(u, es));
      assert CanResume(u) || Run(u, es).queues == [] || Stopped(Run(u, es));
    }
  }

  lemma StoppedBeginsNothing(s: State)
    requires Structure(s)
    ensures s.queues == [] || Stopped(s) ==> !Enabled(s, BeginProcessor)
  {
    if s.stack != [] {
      assert s.stack[0] in s.stack;
    }
  }

  lemma OwedRepeats(s: State, e: Event, c: Cause, x: Cause)
    requires Orderly(s) && StoppedBy(s, c) && StartsOperation(s, e) && e.StartTimer? && Repeats(s, c) && e.periodic
    requires Owed(Step(s, e), x)
    ensures Repeats(Step(s, e), x)
  {
    if x == Started(s, e) {
      NewWaitRepeats(s, e);
    } else {
      KeptByStart(s, e, x);
      assert StoppedBy(s, x);
      StartKeepsRepeats(s, e, x);
    }
  }

  lemma NewWaitRepeats(s: State, e: Event)
    requires Structure(s) && StartsOperation(s, e) && e.StartTimer? && e.periodic
    ensures Repeats(Step(s, e), Started(s, e))
  {
    TimerStep(s, e, e.t);
    var waits := Step(s, e).timers[e.t].waits;
    assert waits[|waits| - 1].serial == s.serial && waits[|waits| - 1].periodic;
  }

  lemma StartKeepsRepeats(s: State, e: Event, c: Cause)
    requires Enabled(s, e) && e.StartTimer? && Repeats(s, c)
    ensures Repeats(Step(s, e), c)
  {
    var f := TimerCallback(c.timer, c.serial, true);
    TimerStep(s, e, c.timer);
    if f in s.stack {
      StartKeepsFrame(s, e, f);
    } else {
      var waits := s.timers[c.timer].waits;
      var i :| 0 <= i < |waits| && waits[i].serial == c.serial && waits[i].periodic;
      assert Arm(waits, e.periodic, s.serial)[i].serial == c.serial && Arm(waits, e.periodic, s.serial)[i].periodic;
    }
  }

  lemma SecondOperationOverlapsExactly(s: State, e: Event, c: Cause)
    requires Orderly(s) && MoreToDo(s) && StoppedBy(s, c) && Owed(s, c) && StartsOperation(s, e)
    ensures CanOverlap(Step(s, e)) <==> !Harmless(s, e, c)
  {
    if !Harmless(s, e, c) {
      var es := HarmfulStartOverlaps(s, e, c);
    } else if CancelsOperation(s, e.t, c) {
      ReplacementIsHarmless(s, e, c);
    } else {
      PeriodicIsHarmless(s, e, c);
    }
  }

  /** The queue waits for an operation and has more processors; the application starts another one. */
  predicate StartsSecond(s: State, e: Event) {
    Stopped(s) && MoreToDo(s) && StartsOperation(s, e)
  }

  /** What a second operation leads to. */
  ghost predicate OverlapsUnlessHarmless(s: State, e: Event)
    requires StartsSecond(s, e)
  {
    CanOverlap(Step(s, e)) <==> !Harmless(s, e, s.queues[|s.queues| - 1].stopper)
  }

  lemma OverlapsFrom(s: State, e: Event)
    requires Orderly(s) && Wakes(s) && StartsSecond(s, e)
    ensures OverlapsUnlessHarmless(s, e)
  {
    SecondOperationOverlapsExactly(s, e, s.queues[|s.queues| - 1].stopper);
  }

  /**
   * After every disciplined run: if the queue waits for an operation and another
   * one is started, by whatever part of the application, a processor can begin
   * while an operation is owed, exactly unless the second replaces the armed wait
   * that is the first, or both are periodic timers.
   */
  lemma TwoOperationsOverlapExactly(es: seq<Event>, e: Event)
    requires Legal(INIT, es) && DisciplinedRun(INIT, es) && StartsSecond(Run(INIT, es), e)
    ensures OverlapsUnlessHarmless(Run(INIT, es), e)
  {
    OrderlyRun(INIT, es);
    WakesRun(INIT, es);
    OverlapsFrom(Run(INIT, es), e);
  }

  lemma AppendDisciplined(s: State, es: seq<Event>, e: Event)
    requires Legal(s, es) && DisciplinedRun(s, es) && Enabled(Run(s, es), e) && Disciplined(Run(s, es), e)
    ensures Legal(s, es + [e]) && Run(s, es + [e]) == Step(Run(s, es), e) && DisciplinedRun(s, es + [e])
    decreases |es|
  {
    AppendOne(s, es, e);
    if es == [] {
      assert es + [e] == [e];
    } else {
      assert (es + [e])[1..] == es[1..] + [e] && (es + [e])[0] == es[0];
      AppendDisciplined(Step(s, es[0]), es[1..], e);
    }
  }

  /** A processor can start two operations. */
  lemma SecondTaskCanStart() returns (es: seq<Event>)
    ensures Legal(INIT, es) && DisciplinedRun(INIT, es)
    ensures var s := Run(INIT, es);
            StartsSecond(s, Post) && !Harmless(s, Post, s.queues[|s.queues| - 1].stopper)
  {
    AppendDisciplined(INIT, [], NewRequest(2));
    es := [] + [NewRequest(2)];
    assert Run(INIT, es).queues == [Queue(false, ByRouter, 0, 2, false)];
    AppendDisciplined(INIT, es, BeginProcessor);
    es := es + [BeginProcessor];
    assert Run(INIT, es).queues == [Queue(false, ByRouter, 1, 2, false)];
    assert Run(INIT, es).stack == [Processor(0, 0, 0), Launching(0)];
    AppendDisciplined(INIT, es, Post);
    es := es + [Post];
  }

  // ---------------------------------------------------------------------------
  // Stopping timers by hand
  // ---------------------------------------------------------------------------

  lemma CancelledDue(waits: seq<Wait>, n: nat, bound: nat)
    requires WaitsOk(waits, bound) && Due(waits, n)
    ensures Due(CancelAll(waits), n)
       <==> !exists i :: 0 <= i < |waits| && waits[i].serial == n && waits[i].phase == Armed
    ensures !Gone(waits, n)
  {
    var i :| 0 <= i < |waits| && waits[i].serial == n && waits[i].phase != Cancelled;
    var after := CancelAll(waits);
    assert after[i].serial == n;
    assert forall k :: 0 <= k < |waits| && waits[k].serial == n ==> k == i;
    if Due(after, n) {
      var k :| 0 <= k < |after| && after[k].serial == n && after[k].phase != Cancelled;
      assert waits[k].serial == n;
    }
  }

  lemma StoppedWaitIsOwed(s: State, t: nat, n: nat)
    requires Structure(s) && RunningGone(s) && Enabled(s, StopTimer(t)) && Current(s, s.timers[t].queue)
    requires Owed(s, ByTimer(t, n))
    ensures Owed(Step(s, StopTimer(t)), ByTimer(t, n)) <==> !CancelsOperation(s, t, ByTimer(t, n))
  {
    var u := Step(s, StopTimer(t));
    var waits := s.timers[t].waits;
    assert TimerOk(s.timers[t], s.serial, |s.queues|);
    assert u.stack[1..] == s.stack && u.timers[t] == s.timers[t].(waits := CancelAll(waits));
    assert CallbackOn(u.stack, t, n) <==> CallbackOn(s.stack, t, n);
    if Due(waits, n) {
      CancelledDue(waits, n, s.serial);
      assert !CallbackOn(s.stack, t, n);
    } else {
      assert Gone(waits, n) && CallbackOn(s.stack, t, n);
    }
  }

  /**
   * Stopping a timer of the request by hand while an operation is owed lets the
   * next processor begin at once; the operation is still owed then, unless it is
   * the armed wait that the stop cancels.
   */
  lemma StopTimerOverlaps(s: State, t: nat, c: Cause)
    requires Orderly(s) && MoreToDo(s) && Owed(s, c) && Enabled(s, StopTimer(t)) && Current(s, s.timers[t].queue)
    ensures Enabled(Step(s, StopTimer(t)), BeginProcessor)
    ensures Owed(Step(s, StopTimer(t)), c) <==> !CancelsOperation(s, t, c)
  {
    if c.ByTimer? && c.timer == t {
      StoppedWaitIsOwed(s, t, c.serial);
    } else {
      StopKeepsOthers(s, t, c);
    }
  }

  lemma StopKeepsOthers(s: State, t: nat, c: Cause)
    requires Owed(s, c) && Enabled(s, StopTimer(t)) && !(c.ByTimer? && c.timer == t)
    ensures Owed(Step(s, StopTimer(t)), c)
  {
    var u := Step(s, StopTimer(t));
    assert u.stack == s.stack || u.stack[1..] == s.stack;
  }

  /**
   * When a one-shot callback returns, its timer stops itself. That ends every wait
   * of the timer that is still armed, and no other.
   */
  lemma ReturnCancelsExactlyArmedWaits(s: State, n: nat)
    requires Structure(s) && RunningGone(s) && HandlersAtBottom(s) && Enabled(s, Return)
    requires s.stack[0].TimerCallback? && !s.stack[0].periodic
    requires var t := s.stack[0].timer; Current(s, s.timers[t].queue) && Due(s.timers[t].waits, n)
    ensures var c := ByTimer(s.stack[0].timer, n);
            Owed(Step(s, Return), c) <==> !CancelsOperation(s, s.stack[0].timer, c)
  {
    var t := s.stack[0].timer;
    assert s.stack[0] in s.stack && |s.stack| == 1;
    assert TimerOk(s.timers[t], s.serial, |s.queues|);
    CancelledDue(s.timers[t].waits, n, s.serial);
    TimerStep(s, Return, t);
    ReturnKeepsWork(s);
    FramesNext(s, Return, TimerCallback(t, n, true));
    FramesNext(s, Return, TimerCallback(t, n, false));
  }

  // ---------------------------------------------------------------------------
  // Client requests that outlive their request
  // ---------------------------------------------------------------------------

  lemma BegunInNextRequest(s: State, size: nat) returns (u: State)
    requires Structure(s) && s.stack == [] && size >= 2
    ensures Enabled(s, NewRequest(size)) && Enabled(Step(s, NewRequest(size)), BeginProcessor)
    ensures u == Step(Step(s, NewRequest(size)), BeginProcessor) && Structure(u)
    ensures u.stack == [Processor(|s.queues|, 0, 0), Launching(|s.queues|)] && MoreToDo(u)
    ensures u.requests == s.requests && u.tasks == s.tasks && |u.queues| == |s.queues| + 1
  {
    var a := Step(s, NewRequest(size));
    u := Step(a, BeginProcessor);
    StructureStep(s, NewRequest(size));
    StructureStep(a, BeginProcessor);
    assert u.queues[|s.queues|] == Queue(false, ByRouter, 1, size, false);
  }

  lemma PostOnTop(s: State, q: nat) returns (u: State)
    requires Structure(s) && s.stack == [Processor(q, 0, 0), Launching(q)] && MoreToDo(s) && |s.queues| == q + 1
    ensures Enabled(s, Post) && u == Step(s, Post) && Structure(u)
    ensures u.stack == [Processor(q, 0, 1), Launching(q)] && MoreToDo(u) && |u.queues| == q + 1
    ensures u.requests == s.requests && u.tasks == s.tasks + [Task(Some(q), Posted, 0)] && Stopped(u)
  {
    u := Step(s, Post);
    StructureStep(s, Post);
  }

  lemma PostInNextRequest(s: State, size: nat) returns (es: seq<Event>, u: State)
    requires Structure(s) && s.stack == [] && size >= 2
    ensures Legal(s, es) && u == Run(s, es) && Structure(u)
    ensures u.stack == [Processor(|s.queues|, 0, 1), Launching(|s.queues|)] && MoreToDo(u)
    ensures u.requests == s.requests && u.tasks == s.tasks + [Task(Some(|s.queues|), Posted, 0)]
    ensures |u.queues| == |s.queues| + 1 && Stopped(u)
  {
    var b := BegunInNextRequest(s, size);
    u := PostOnTop(b, |s.queues|);
    PrependOne(b, Post, []);
    es := [Post] + [];
    PrependOne(Step(s, NewRequest(size)), BeginProcessor, es);
    es := [BeginProcessor] + es;
    PrependOne(s, NewRequest(size), es);
    es := [NewRequest(size)] + es;
  }

  /**
   * A client request that is unanswered when the next request comes in resumes
   * the queue of that one, while a task that its first processor has posted is owed.
   */
  lemma LateResponseOverlaps(s: State, r: nat, size: nat) returns (es: seq<Event>, more: seq<Event>)
    requires Structure(s) && s.stack == [] && Pending(s, ByClient(r)) && size >= 2
    ensures Legal(s, es) && Run(s, es).stack == [Processor(|s.queues|, 0, 1), Launching(|s.queues|)]
    ensures Overtakes(Run(s, es), more)
  {
    var u;
    es, u := PostInNextRequest(s, size);
    more := ReadyResumes(u, ByClient(r), ByTask(|s.tasks|));
    ReachingOvertakes(u, more, ByTask(|s.tasks|));
  }

  // ---------------------------------------------------------------------------
  // What every start does
  // ---------------------------------------------------------------------------

  lemma StartStopsFrom(s: State, e: Event)
    requires Structure(s) && RunningGone(s) && StartsOperation(s, e)
    ensures StoppedBy(Step(s, e), Started(s, e)) && Owed(Step(s, e), Started(s, e))
  {
    StartedIsOwed(s, e);
    if e.StartTimer? {
      ArmedIsOwed(Step(s, e), Started(s, e), |s.timers[e.t].waits|);
    } else {
      FirmIsOwed(Step(s, e), Started(s, e));
    }
    StartStops(s, e, Started(s, e));
  }

  lemma ArmedIsOwed(s: State, c: Cause, i: nat)
    requires IsArmed(s, c, i)
    ensures Owed(s, c)
  {
    assert s.timers[c.timer].waits[i].serial == c.serial;
  }

  /** In every run, each start of an operation stops the current queue, and from then on the operation is owed. */
  lemma EveryStartStopsTheQueue(es: seq<Event>, e: Event)
    requires Legal(INIT, es) && StartsOperation(Run(INIT, es), e)
    ensures var s := Run(INIT, es);
            StoppedBy(Step(s, e), Started(s, e)) && Owed(Step(s, e), Started(s, e))
  {
    HandlersRun(INIT, es);
    StartStopsFrom(Run(INIT, es), e);
  }
}
