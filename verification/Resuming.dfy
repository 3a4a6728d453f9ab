/**
 * When a stopped queue can be resumed although the application does nothing: when
 * something is owed to it that is not a periodic timer.
 */
module Resuming {
  import opened Options
  import opened Timers
  import opened Suspension
  import opened SuspensionInvariant
  import opened Resumption
  import opened TimerRuns
  import opened StoppedTimers
  import opened NonOverlap

  /** No operation is started, no timer is stopped and no request comes in. */
  predicate Idles(e: Event) {
    !IsStart(e) && !e.StopTimer? && !e.NewRequest?
  }

  predicate OnlyIdles(es: seq<Event>) {
    forall e :: e in es ==> Idles(e)
  }

  predicate Stopped(s: State) {
    s.queues != [] && s.queues[|s.queues| - 1].stopped
  }

  /** Operation `c` is a periodic wait, or its callback is running and will arm one. */
  predicate Repeats(s: State, c: Cause) {
    && c.ByTimer? && c.timer < |s.timers|
    && (|| TimerCallback(c.timer, c.serial, true) in s.stack
        || exists i :: 0 <= i < |s.timers[c.timer].waits| && s.timers[c.timer].waits[i].serial == c.serial
             && s.timers[c.timer].waits[i].periodic)
  }

  /** The request is not answered, and has a processor that has not begun. */
  predicate MoreToDo(s: State) {
    s.queues != [] && var q := s.queues[|s.queues| - 1]; !q.answered && q.next < q.size
  }

  // ---------------------------------------------------------------------------
  // Operations that nothing takes back
  // ---------------------------------------------------------------------------

  predicate ExpiredWait(waits: seq<Wait>, n: nat) {
    exists i :: 0 <= i < |waits| && waits[i].serial == n && waits[i].phase == Expired
  }

  /** Operation `c` is outstanding, is not running, and no return of a callback can cancel it. */
  predicate Firm(s: State, c: Cause) {
    match c
    case ByTimer(t, n) => t < |s.timers| && Current(s, s.timers[t].queue) && ExpiredWait(s.timers[t].waits, n)
    case ByTask(j) =>
      j < |s.tasks| && Current(s, s.tasks[j].queue) && Live(s.tasks[j]) && s.tasks[j].phase != Running
    case ByClient(r) =>
      r < |s.requests| && (s.requests[r].phase == Connecting || s.requests[r].phase == Accepted)
    case _ => false
  }

  /** The callback of operation `c` is running. */
  predicate Runs(s: State, c: Cause) {
    match c
    case ByTimer(t, n) => t < |s.timers| && Current(s, s.timers[t].queue) && CallbackOn(s.stack, t, n)
    case ByTask(j) => j < |s.tasks| && Current(s, s.tasks[j].queue) && TaskCallback(j) in s.stack
    case ByClient(r) => ClientCallback(r) in s.stack
    case _ => false
  }

  lemma FirmIsOwed(s: State, c: Cause)
    requires Firm(s, c)
    ensures Owed(s, c)
  {
  }

  /** An operation that is owed is firm, or running, or a wait that is still armed. */
  lemma OwedCases(s: State, c: Cause) returns (i: nat)
    requires Structure(s) && Owed(s, c)
    ensures Firm(s, c) || Runs(s, c) || (c.ByTimer? && IsArmed(s, c, i))
  {
    i := 0;
    if c.ByTimer? && !Firm(s, c) && !Runs(s, c) {
      i :| 0 <= i < |s.timers[c.timer].waits| && s.timers[c.timer].waits[i].serial == c.serial
        && s.timers[c.timer].waits[i].phase != Cancelled;
    }
  }

  /** Operation `c` is the armed wait `i` of its timer. */
  predicate IsArmed(s: State, c: Cause, i: nat) {
    && c.ByTimer? && c.timer < |s.timers| && Current(s, s.timers[c.timer].queue) && i < |s.timers[c.timer].waits|
    && s.timers[c.timer].waits[i].serial == c.serial && s.timers[c.timer].waits[i].phase == Armed
  }

  lemma ExpiredKept(waits: seq<Wait>, n: nat)
    requires ExpiredWait(waits, n)
    ensures ExpiredWait(CancelAll(waits), n)
    ensures forall periodic: bool, serial: nat :: ExpiredWait(Arm(waits, periodic, serial), n)
    ensures forall i: nat :: i < |waits| ==> ExpiredWait(Expire(waits, i), n)
  {
    var i :| 0 <= i < |waits| && waits[i].serial == n && waits[i].phase == Expired;
    assert CancelAll(waits)[i] == waits[i];
    forall periodic: bool, serial: nat
      ensures ExpiredWait(Arm(waits, periodic, serial), n)
    {
      assert Arm(waits, periodic, serial)[i] == waits[i];
    }
    forall k: nat | k < |waits|
      ensures ExpiredWait(Expire(waits, k), n)
    {
      assert Expire(waits, k)[i].serial == n && Expire(waits, k)[i].phase == Expired;
    }
  }

  lemma ExpiredNotTaken(waits: seq<Wait>, i: nat, n: nat)
    requires ExpiredWait(waits, n) && i < |waits| && waits[i].serial != n
    ensures ExpiredWait(Take(waits, i), n)
  {
    var k :| 0 <= k < |waits| && waits[k].serial == n && waits[k].phase == Expired;
    assert Take(waits, i)[if k < i then k else k - 1] == waits[k];
  }

  /** The steps that let the running handlers return and operations end. */
  predicate Ebbs(s: State, e: Event) {
    e == Return || e == EndLaunch || e.Elapse? || e.Dispatch? || e.RunTask? || e.DropContext?
    || e.Respond? || (e.Connected? && (e.error || !e.accepted))
  }

  /** The step is the next one in the course of operation `c` itself. */
  predicate Advances(s: State, e: Event, c: Cause) {
    match c
    case ByTimer(t, n) =>
      e.Dispatch? && e.t == t && t < |s.timers| && e.i < |s.timers[t].waits| && s.timers[t].waits[e.i].serial == n
    case ByTask(j) => e == RunTask(j) || e == DropContext(j)
    case ByClient(r) => (e.Respond? || e.Connected?) && e.r == r
    case _ => false
  }

  lemma FirmWaitKept(s: State, e: Event, c: Cause)
    requires Structure(s) && Enabled(s, e) && Ebbs(s, e) && Firm(s, c) && c.ByTimer? && !Advances(s, e, c)
    ensures c.timer < |Step(s, e).timers| && Step(s, e).timers[c.timer].queue == s.timers[c.timer].queue
    ensures ExpiredWait(Step(s, e).timers[c.timer].waits, c.serial)
  {
    var waits := s.timers[c.timer].waits;
    TimerStep(s, e, c.timer);
    if e.Dispatch? && e.t == c.timer {
      ExpiredNotTaken(waits, e.i, c.serial);
    } else {
      ExpiredKept(waits, c.serial);
    }
  }

  lemma FirmTaskOfReturn(s: State, j: nat)
    requires Structure(s) && Enabled(s, Return) && Firm(s, ByTask(j))
    ensures j < |Step(s, Return).tasks| && Step(s, Return).tasks[j] == s.tasks[j]
  {
    assert s.stack[0] in s.stack;
  }

  lemma FirmTaskKept(s: State, e: Event, j: nat)
    requires Structure(s) && Enabled(s, e) && Ebbs(s, e) && Firm(s, ByTask(j)) && !Advances(s, e, ByTask(j))
    ensures j < |Step(s, e).tasks| && Step(s, e).tasks[j] == s.tasks[j]
  {
    if !UsesTasks(e) {
      TasksKept(s, e);
    } else if e == Return {
      FirmTaskOfReturn(s, j);
    }
  }

  lemma FirmClientOfReturn(s: State, r: nat)
    requires Structure(s) && Enabled(s, Return) && Firm(s, ByClient(r))
    ensures r < |Step(s, Return).requests| && Step(s, Return).requests[r] == s.requests[r]
  {
    assert s.stack[0] in s.stack;
  }

  lemma FirmClientKept(s: State, e: Event, r: nat)
    requires Structure(s) && Enabled(s, e) && Ebbs(s, e) && Firm(s, ByClient(r)) && !Advances(s, e, ByClient(r))
    ensures r < |Step(s, e).requests| && Step(s, e).requests[r] == s.requests[r]
  {
    if !UsesRequests(e) {
      RequestsKept(s, e);
    } else if e == Return {
      FirmClientOfReturn(s, r);
    }
  }

  lemma ReturnKeepsWork(s: State)
    requires Enabled(s, Return)
    ensures |Step(s, Return).queues| == |s.queues| && (MoreToDo(s) ==> MoreToDo(Step(s, Return)))
  {
  }

  lemma ResponseKeepsWork(s: State, e: Event)
    requires Structure(s) && Enabled(s, e) && (e.Connected? || e.Respond?)
    ensures Step(s, e).queues == s.queues
  {
    ResponseKeepsQueues(s, e);
  }

  lemma EbbKeepsWork(s: State, e: Event)
    requires Structure(s) && Enabled(s, e) && Ebbs(s, e)
    ensures |Step(s, e).queues| == |s.queues| && (MoreToDo(s) ==> MoreToDo(Step(s, e)))
  {
    if e == Return {
      ReturnKeepsWork(s);
    } else if e.Connected? || e.Respond? {
      ResponseKeepsWork(s, e);
    }
  }

  /** A firm operation stays firm until its own course goes on. */
  lemma FirmKept(s: State, e: Event, c: Cause)
    requires Structure(s) && Enabled(s, e) && Ebbs(s, e) && Firm(s, c) && !Advances(s, e, c)
    ensures Firm(Step(s, e), c)
  {
    EbbKeepsWork(s, e);
    match c {
      case ByTimer(_, _) => FirmWaitKept(s, e, c);
      case ByTask(j) => FirmTaskKept(s, e, j);
      case ByClient(r) => FirmClientKept(s, e, r);
    }
  }

  // ---------------------------------------------------------------------------
  // The end of one operation
  // ---------------------------------------------------------------------------

  /** The current queue has just been launched. */
  predicate Resumed(s: State) {
    s.queues != [] && !s.queues[|s.queues| - 1].stopped && s.stack != [] && s.stack[0] == Launching(|s.queues| - 1)
  }

  /** A run without the application's help launches the current queue; operation `d`, if firm, is firm still. */
  predicate Reaches(s: State, es: seq<Event>, d: Cause) {
    && Legal(s, es) && OnlyIdles(es)
    && var u := Run(s, es);
      && Resumed(u) && |u.queues| == |s.queues| && (MoreToDo(s) ==> MoreToDo(u)) && (Firm(s, d) ==> Firm(u, d))
  }

  lemma ReachesNow(s: State, d: Cause)
    requires Resumed(s)
    ensures Reaches(s, [], d)
  {
  }

  lemma ReachesNext(s: State, e: Event, d: Cause, rest: seq<Event>) returns (es: seq<Event>)
    requires Structure(s) && Enabled(s, e) && Ebbs(s, e) && !Advances(s, e, d) && Reaches(Step(s, e), rest, d)
    ensures Reaches(s, es, d)
  {
    EbbKeepsWork(s, e);
    if Firm(s, d) {
      FirmKept(s, e, d);
    }
    PrependOne(s, e, rest);
    es := [e] + rest;
  }

  lemma DispatchCalls(s: State, t: nat, i: nat)
    requires Enabled(s, Dispatch(t, i)) && s.timers[t].waits[i].phase == Expired
    ensures var u, wait := Step(s, Dispatch(t, i)), s.timers[t].waits[i];
            && u.stack == [TimerCallback(t, wait.serial, wait.periodic)] && u.queues == s.queues
            && t < |u.timers| && u.timers[t].queue == s.timers[t].queue
  {
  }

  lemma OneShotResumes(s: State, t: nat, n: nat)
    requires s.stack == [TimerCallback(t, n, false)] && t < |s.timers| && Current(s, s.timers[t].queue)
    ensures Enabled(s, Return) && Resumed(Step(s, Return))
  {
  }

  lemma TimerFinishes(s: State, c: Cause, d: Cause) returns (es: seq<Event>)
    requires Structure(s) && s.stack == [] && c.ByTimer? && Firm(s, c) && !Repeats(s, c) && c != d
    ensures Reaches(s, es, d)
  {
    var t := c.timer;
    var i :| 0 <= i < |s.timers[t].waits| && s.timers[t].waits[i].serial == c.serial
          && s.timers[t].waits[i].phase == Expired;
    es := ExpiredFinishes(s, t, i, d);
  }

  lemma ExpiredFinishes(s: State, t: nat, i: nat, d: Cause) returns (es: seq<Event>)
    requires Structure(s) && Enabled(s, Dispatch(t, i)) && Current(s, s.timers[t].queue)
    requires var wait := s.timers[t].waits[i];
             wait.phase == Expired && !wait.periodic && d != ByTimer(t, wait.serial)
    ensures Reaches(s, es, d)
  {
    var u := Step(s, Dispatch(t, i));
    StructureStep(s, Dispatch(t, i));
    DispatchCalls(s, t, i);
    OneShotResumes(u, t, s.timers[t].waits[i].serial);
    ReachesNow(Step(u, Return), d);
    es := ReachesNext(u, Return, d, []);
    es := ReachesNext(s, Dispatch(t, i), d, es);
  }

  lemma PostedFinishes(s: State, j: nat, d: Cause) returns (es: seq<Event>)
    requires Structure(s) && s.stack == [] && Firm(s, ByTask(j)) && s.tasks[j].phase == Posted && d != ByTask(j)
    ensures Reaches(s, es, d)
  {
    assert TaskOk(s.tasks[j], |s.queues|);
    var u := Step(s, RunTask(j));
    StructureStep(s, RunTask(j));
    ReachesNow(Step(u, Return), d);
    es := ReachesNext(u, Return, d, []);
    es := ReachesNext(s, RunTask(j), d, es);
  }

  lemma DropOne(s: State, j: nat) returns (u: State)
    requires Structure(s) && s.stack == [] && Firm(s, ByTask(j)) && s.tasks[j].phase != Posted
    ensures Enabled(s, DropContext(j)) && u == Step(s, DropContext(j)) && Structure(u)
    ensures s.tasks[j].spare == 1 ==> Resumed(u)
    ensures s.tasks[j].spare > 1 ==> u.stack == [] && Firm(u, ByTask(j)) && u.tasks[j].phase != Posted
    ensures s.tasks[j].spare > 1 ==> u.tasks[j].spare < s.tasks[j].spare
  {
    u := Step(s, DropContext(j));
    StructureStep(s, DropContext(j));
  }

  lemma ContextsFinish(s: State, j: nat, d: Cause) returns (es: seq<Event>)
    requires Structure(s) && s.stack == [] && Firm(s, ByTask(j)) && s.tasks[j].phase != Posted && d != ByTask(j)
    ensures Reaches(s, es, d)
    decreases s.tasks[j].spare
  {
    var u := DropOne(s, j);
    if s.tasks[j].spare == 1 {
      ReachesNow(u, d);
      es := [];
    } else {
      es := ContextsFinish(u, j, d);
    }
    es := ReachesNext(s, DropContext(j), d, es);
  }

  lemma TaskFinishes(s: State, c: Cause, d: Cause) returns (es: seq<Event>)
    requires Structure(s) && s.stack == [] && c.ByTask? && Firm(s, c) && c != d
    ensures Reaches(s, es, d)
  {
    if s.tasks[c.task].phase == Posted {
      es := PostedFinishes(s, c.task, d);
    } else {
      es := ContextsFinish(s, c.task, d);
    }
  }

  lemma ClientFinishes(s: State, c: Cause, d: Cause) returns (es: seq<Event>)
    requires Structure(s) && s.stack == [] && s.queues != [] && c.ByClient? && Firm(s, c) && c != d
    ensures Reaches(s, es, d)
  {
    var r := c.request;
    var e := if s.requests[r].phase == Connecting then Connected(r, true, false) else Respond(r);
    var u := Step(s, e);
    StructureStep(s, e);
    ResponseKeepsWork(s, e);
    ResponseOnTop(s, e);
    AnswerFinishes(u, r);
    ReachesNow(Step(u, Return), d);
    es := ReachesNext(u, Return, d, []);
    es := ReachesNext(s, e, d, es);
  }

  lemma ResponseOnTop(s: State, e: Event)
    requires Structure(s) && s.stack == [] && Enabled(s, e) && (e.Respond? || (e.Connected? && e.error))
    ensures Step(s, e).stack == [ClientCallback(e.r)]
  {
    assert TimerOk(s.timers[s.requests[e.r].timer], s.serial, |s.queues|);
  }

  lemma AnswerFinishes(s: State, r: nat)
    requires Structure(s) && s.stack == [ClientCallback(r)]
    ensures Enabled(s, Return) && Resumed(Step(s, Return))
  {
    assert s.stack[0] in s.stack;
    assert Current(s, s.clientQueue);
  }

  lemma FirmFinishes(s: State, c: Cause, d: Cause) returns (es: seq<Event>)
    requires Structure(s) && s.stack == [] && s.queues != [] && Firm(s, c) && !Repeats(s, c) && c != d
    ensures Reaches(s, es, d)
  {
    match c {
      case ByTimer(_, _) => es := TimerFinishes(s, c, d);
      case ByTask(_) => es := TaskFinishes(s, c, d);
      case ByClient(_) => es := ClientFinishes(s, c, d);
    }
  }

  // ---------------------------------------------------------------------------
  // Letting the running handlers return first
  // ---------------------------------------------------------------------------

  /** Operation `c` is firm or running, and will not be repeated. */
  predicate Ready(s: State, c: Cause) {
    (Firm(s, c) || Runs(s, c)) && !Repeats(s, c)
  }

  predicate HasPeriodic(waits: seq<Wait>, n: nat) {
    exists i :: 0 <= i < |waits| && waits[i].serial == n && waits[i].periodic
  }

  lemma NoneMadePeriodic(waits: seq<Wait>, serial: nat, n: nat)
    requires !HasPeriodic(waits, n) && n < serial
    ensures !HasPeriodic(CancelAll(waits), n) && !HasPeriodic(Arm(waits, true, serial), n)
  {
  }

  lemma ReadyIsOld(s: State, c: Cause)
    requires Structure(s) && RunningGone(s) && Ready(s, c) && c.ByTimer?
    ensures c.serial < s.serial
  {
    assert TimerOk(s.timers[c.timer], s.serial, |s.queues|);
  }

  lemma ReadyDoesNotRepeat(s: State, e: Event, c: Cause)
    requires Structure(s) && RunningGone(s) && Enabled(s, e) && (e == Return || e == EndLaunch) && Ready(s, c)
    ensures !Repeats(Step(s, e), c)
  {
    if c.ByTimer? {
      TimerStep(s, e, c.timer);
      FramesNext(s, e, TimerCallback(c.timer, c.serial, true));
      ReadyIsOld(s, c);
      assert !HasPeriodic(s.timers[c.timer].waits, c.serial);
      NoneMadePeriodic(s.timers[c.timer].waits, s.serial, c.serial);
      assert !HasPeriodic(NextWaits(s, e, c.timer), c.serial);
    }
  }

  /** When the innermost call returns, the queue is launched, or operation `c` is as ready as before. */
  lemma ReturnResumes(s: State, c: Cause)
    requires Structure(s) && RunningGone(s) && HandlersAtBottom(s) && Enabled(s, Return) && Stopped(s) && Ready(s, c)
    ensures var u := Step(s, Return);
            Resumed(u) || (Stopped(u) && Ready(u, c) && u.stack == s.stack[1..])
  {
    ReadyDoesNotRepeat(s, Return, c);
    ReturnLaunches(s);
    if Firm(s, c) {
      FirmKept(s, Return, c);
    } else {
      RunningReturns(s, c);
    }
  }

  lemma ReturnLaunches(s: State)
    requires Structure(s) && Enabled(s, Return) && Stopped(s)
    ensures var u := Step(s, Return);
            Resumed(u) || (Stopped(u) && u.stack == s.stack[1..])
  {
    assert s.stack[0] in s.stack;
  }

  lemma RunningReturns(s: State, c: Cause)
    requires Structure(s) && HandlersAtBottom(s) && Enabled(s, Return) && Stopped(s) && Runs(s, c) && !Repeats(s, c)
    ensures var u := Step(s, Return);
            Resumed(u) || Firm(u, c) || Runs(u, c)
  {
    match c {
      case ByTimer(_, _) => RunningTimerReturns(s, c);
      case ByTask(_) => RunningTaskReturns(s, c);
      case ByClient(_) => RunningClientReturns(s, c);
    }
  }

  lemma RunningTimerReturns(s: State, c: Cause)
    requires Structure(s) && HandlersAtBottom(s) && Enabled(s, Return) && Stopped(s)
    requires Runs(s, c) && !Repeats(s, c) && c.ByTimer?
    ensures Resumed(Step(s, Return)) || Runs(Step(s, Return), c)
  {
    var f := TimerCallback(c.timer, c.serial, false);
    assert f in s.stack;
    TimerStep(s, Return, c.timer);
    ReturnKeepsWork(s);
    if f != s.stack[0] {
      ReturnKeepsFrame(s, f);
    }
  }

  lemma RunningTaskReturns(s: State, c: Cause)
    requires Structure(s) && Enabled(s, Return) && Stopped(s) && Runs(s, c) && c.ByTask?
    ensures var u := Step(s, Return);
            Resumed(u) || Firm(u, c) || Runs(u, c)
  {
    var f := TaskCallback(c.task);
    assert s.stack[0] in s.stack;
    if f != s.stack[0] {
      ReturnKeepsFrame(s, f);
    }
  }

  lemma RunningClientReturns(s: State, c: Cause)
    requires Structure(s) && Enabled(s, Return) && Stopped(s) && Runs(s, c) && c.ByClient?
    ensures Resumed(Step(s, Return)) || Runs(Step(s, Return), c)
  {
    var f := ClientCallback(c.request);
    assert Current(s, s.clientQueue);
    if f != s.stack[0] {
      ReturnKeepsFrame(s, f);
    }
  }

  lemma ReturnKeepsFrame(s: State, f: Frame)
    requires Enabled(s, Return) && f in s.stack && f != s.stack[0]
    ensures f in Step(s, Return).stack
  {
    var u := Step(s, Return);
    assert f in s.stack[1..];
    assert u.stack == s.stack[1..] || u.stack[1..] == s.stack[1..];
  }

  lemma EndLaunchKeepsReady(s: State, c: Cause)
    requires Structure(s) && RunningGone(s) && Stopped(s) && Ready(s, c) && s.stack != [] && s.stack[0].Launching?
    ensures Enabled(s, EndLaunch) && Stopped(Step(s, EndLaunch)) && Ready(Step(s, EndLaunch), c)
  {
    assert s.stack[0] in s.stack;
    ReadyDoesNotRepeat(s, EndLaunch, c);
    forall f | f in s.stack && !f.Launching?
      ensures f in s.stack[1..]
    {
    }
  }

  lemma NextReturnEnabled(s: State, e: Event)
    requires Structure(s) && Stopped(s) && s.stack != []
    requires e == if s.stack[0].Launching? then EndLaunch else Return
    ensures Enabled(s, e)
  {
    assert s.stack[0] in s.stack;
  }

  lemma ReadyNext(s: State, e: Event, c: Cause)
    requires Structure(s) && RunningGone(s) && HandlersAtBottom(s) && Stopped(s) && Ready(s, c) && s.stack != []
    requires Enabled(s, e) && e == if s.stack[0].Launching? then EndLaunch else Return
    ensures var u := Step(s, e);
            Resumed(u) || (Stopped(u) && Ready(u, c) && u.stack == s.stack[1..])
  {
    if e == EndLaunch {
      EndLaunchKeepsReady(s, c);
    } else {
      ReturnResumes(s, c);
    }
  }

  /** An operation that is ready resumes the queue, whatever handlers are running. */
  lemma ReadyResumes(s: State, c: Cause, d: Cause) returns (es: seq<Event>)
    requires Structure(s) && RunningGone(s) && HandlersAtBottom(s) && Stopped(s) && Ready(s, c) && c != d
    ensures Reaches(s, es, d)
    decreases |s.stack|
  {
    if s.stack == [] {
      es := FirmFinishes(s, c, d);
    } else {
      var e := if s.stack[0].Launching? then EndLaunch else Return;
      NextReturnEnabled(s, e);
      ReadyNext(s, e, c);
      InvariantsStep(s, e);
      if Resumed(Step(s, e)) {
        ReachesNow(Step(s, e), d);
        es := [];
      } else {
        es := ReadyResumes(Step(s, e), c, d);
      }
      es := ReachesNext(s, e, d, es);
    }
  }

  lemma InvariantsStep(s: State, e: Event)
    requires Structure(s) && RunningGone(s) && HandlersAtBottom(s) && Enabled(s, e)
    ensures Structure(Step(s, e)) && RunningGone(Step(s, e)) && HandlersAtBottom(Step(s, e))
  {
    StructureStep(s, e);
    RunningGoneStep(s, e);
    HandlersStep(s, e);
  }

  /** The wait `c` expires. */
  lemma ExpireWait(s: State, c: Cause, i: nat) returns (e: Event)
    requires Structure(s) && RunningGone(s) && HandlersAtBottom(s) && IsArmed(s, c, i)
    ensures e == Elapse(c.timer, i) && Enabled(s, e) && Firm(Step(s, e), c)
    ensures Structure(Step(s, e)) && RunningGone(Step(s, e)) && HandlersAtBottom(Step(s, e))
    ensures Step(s, e).stack == s.stack && Step(s, e).queues == s.queues
    ensures forall d :: Repeats(Step(s, e), d) <==> Repeats(s, d)
  {
    e := Elapse(c.timer, i);
    InvariantsStep(s, e);
    var u := Step(s, e);
    assert u.timers[c.timer].waits[i].phase == Expired && u.timers[c.timer].waits[i].serial == c.serial;
    forall d
      ensures Repeats(u, d) <==> Repeats(s, d)
    {
      ExpiryKeepsRepeats(s, e, d);
    }
  }

  lemma ExpiryKeepsRepeats(s: State, e: Event, d: Cause)
    requires Enabled(s, e) && e.Elapse?
    ensures Repeats(Step(s, e), d) <==> Repeats(s, d)
  {
    if d.ByTimer? && d.timer < |s.timers| {
      var before, after := s.timers[d.timer].waits, Step(s, e).timers[d.timer].waits;
      assert |after| == |before|;
      assert forall k :: 0 <= k < |before| ==>
          after[k].serial == before[k].serial && after[k].periodic == before[k].periodic;
    }
  }

  /** Whatever is owed and not repeated can resume the queue. */
  lemma OwedResumes(s: State, c: Cause) returns (es: seq<Event>)
    requires Structure(s) && RunningGone(s) && HandlersAtBottom(s) && Stopped(s) && Owed(s, c) && !Repeats(s, c)
    ensures Reaches(s, es, ByRouter)
  {
    var i := OwedCases(s, c);
    if Firm(s, c) || Runs(s, c) {
      es := ReadyResumes(s, c, ByRouter);
    } else {
      var e := ExpireWait(s, c, i);
      es := ReadyResumes(Step(s, e), c, ByRouter);
      es := ReachesNext(s, e, ByRouter, es);
    }
  }

  // ---------------------------------------------------------------------------
  // Periodic timers that nobody stops
  // ---------------------------------------------------------------------------

  /** Nothing is owed to the current queue but the waits of periodic timers. */
  ghost predicate OnlyPeriodic(s: State) {
    && (forall c :: Owed(s, c) ==> c.ByTimer?)
    && (forall t: nat :: t < |s.timers| && Current(s, s.timers[t].queue) ==> RepeatsAlways(s, t))
  }

  predicate RepeatsAlways(s: State, t: nat)
    requires t < |s.timers|
  {
    && (forall i :: 0 <= i < |s.timers[t].waits| && s.timers[t].waits[i].phase != Cancelled ==>
          s.timers[t].waits[i].periodic)
    && (forall f :: f in s.stack && f.TimerCallback? && f.timer == t ==> f.periodic)
  }

  /** The current queue is stopped, and only periodic timers could resume it. */
  ghost predicate WaitsForPeriodic(s: State) {
    && Structure(s) && RunningGone(s) && HandlersAtBottom(s) && OnlyPeriodic(s)
    && Stopped(s)
  }

  lemma PeriodicOwed(s: State, e: Event, c: Cause)
    requires WaitsForPeriodic(s) && Enabled(s, e) && Idles(e) && Owed(Step(s, e), c)
    ensures c.ByTimer?
  {
    if !IsRearm(s, e) {
      OwedBefore(s, e, c);
    } else if c != ByTimer(s.stack[0].timer, s.serial) {
      OwedBeforeRearm(s, c);
    }
  }

  lemma PeriodicWaits(s: State, e: Event, t: nat)
    requires Structure(s) && Enabled(s, e) && Idles(e) && t < |s.timers| && RepeatsAlways(s, t)
    ensures forall i :: 0 <= i < |NextWaits(s, e, t)| && NextWaits(s, e, t)[i].phase != Cancelled ==>
              NextWaits(s, e, t)[i].periodic
  {
    if e == Return {
      assert s.stack[0] in s.stack;
    }
  }

  lemma PeriodicKept(s: State, e: Event, t: nat)
    requires Structure(s) && Enabled(s, e) && Idles(e) && t < |s.timers| && RepeatsAlways(s, t)
    ensures t < |Step(s, e).timers| && RepeatsAlways(Step(s, e), t)
  {
    TimerStep(s, e, t);
    PeriodicWaits(s, e, t);
    forall f | f in Step(s, e).stack && f.TimerCallback? && f.timer == t
      ensures f.periodic
    {
      PeriodicFrame(s, e, f);
    }
  }

  lemma PeriodicFrame(s: State, e: Event, f: Frame)
    requires Enabled(s, e) && f.TimerCallback? && f in Step(s, e).stack
    requires f.timer < |s.timers| && RepeatsAlways(s, f.timer)
    ensures f.periodic
  {
    FramesNext(s, e, f);
    if f !in s.stack {
      var wait := s.timers[e.t].waits[e.i];
      assert e.Dispatch? && Step(s, e).stack == [TimerCallback(e.t, wait.serial, wait.periodic)];
    }
  }

  lemma NewTimerRepeats(s: State, e: Event, t: nat)
    requires Structure(s) && Enabled(s, e) && Idles(e) && |s.timers| <= t < |Step(s, e).timers|
    ensures RepeatsAlways(Step(s, e), t)
  {
    TimersGrow(s, e);
    forall f | f in Step(s, e).stack && f.TimerCallback?
      ensures f.timer < |s.timers|
    {
      FramesNext(s, e, f);
      if f in s.stack {
        assert FrameOk(s, f);
      }
    }
  }

  lemma StaysStopped(s: State, e: Event)
    requires WaitsForPeriodic(s) && Enabled(s, e) && Idles(e)
    ensures |Step(s, e).queues| == |s.queues| && Step(s, e).queues[|s.queues| - 1].stopped
  {
    if !IsRearm(s, e) {
      QueueNext(s, e);
      assert s.stack != [] ==> s.stack[0] in s.stack;
      if Relaunches(s, e) {
        var c := RelaunchEnds(s, e);
      }
    }
  }

  lemma PeriodicStep(s: State, e: Event)
    requires WaitsForPeriodic(s) && Enabled(s, e) && Idles(e)
    ensures WaitsForPeriodic(Step(s, e)) && |Step(s, e).queues| == |s.queues|
  {
    var u := Step(s, e);
    StructureStep(s, e);
    RunningGoneStep(s, e);
    HandlersStep(s, e);
    StaysStopped(s, e);
    forall c | Owed(u, c)
      ensures c.ByTimer?
    {
      PeriodicOwed(s, e, c);
    }
    forall t: nat | t < |u.timers| && Current(u, u.timers[t].queue)
      ensures RepeatsAlways(u, t)
    {
      if t < |s.timers| {
        TimerStep(s, e, t);
        PeriodicKept(s, e, t);
      } else {
        NewTimerRepeats(s, e, t);
      }
    }
  }

  lemma {:induction false} PeriodicRun(s: State, es: seq<Event>)
    requires WaitsForPeriodic(s) && Legal(s, es) && OnlyIdles(es)
    ensures WaitsForPeriodic(Run(s, es)) && |Run(s, es).queues| == |s.queues|
    decreases |es|
  {
    if es != [] {
      assert es[0] in es && forall e :: e in es[1..] ==> e in es;
      PeriodicStep(s, es[0]);
      PeriodicRun(Step(s, es[0]), es[1..]);
    }
  }

  lemma {:induction false} HandlersRun(s: State, es: seq<Event>)
    requires Structure(s) && RunningGone(s) && HandlersAtBottom(s) && Legal(s, es)
    ensures Structure(Run(s, es)) && RunningGone(Run(s, es)) && HandlersAtBottom(Run(s, es))
    decreases |es|
  {
    if es != [] {
      StructureStep(s, es[0]);
      RunningGoneStep(s, es[0]);
      HandlersStep(s, es[0]);
      HandlersRun(Step(s, es[0]), es[1..]);
    }
  }

  /** What is owed to the current queue are periodic waits and callbacks, and nothing else. */
  ghost predicate OnlyRepeats(s: State) {
    forall c :: Owed(s, c) ==> Repeats(s, c)
  }

  lemma OnlyRepeatsMeans(s: State)
    requires Structure(s) && RunningGone(s) && HandlersAtBottom(s) && OnlyRepeats(s)
    ensures OnlyPeriodic(s)
  {
    forall t: nat | t < |s.timers| && Current(s, s.timers[t].queue)
      ensures RepeatsAlways(s, t)
    {
      TimerRepeats(s, t);
    }
  }

  lemma TimerRepeats(s: State, t: nat)
    requires Structure(s) && RunningGone(s) && HandlersAtBottom(s) && OnlyRepeats(s)
    requires t < |s.timers| && Current(s, s.timers[t].queue)
    ensures RepeatsAlways(s, t)
  {
    var waits := s.timers[t].waits;
    assert TimerOk(s.timers[t], s.serial, |s.queues|);
    forall i | 0 <= i < |waits| && waits[i].phase != Cancelled
      ensures waits[i].periodic
    {
      var c := ByTimer(t, waits[i].serial);
      assert Due(waits, waits[i].serial) && Owed(s, c) && Repeats(s, c);
      assert TimerCallback(t, waits[i].serial, true) !in s.stack;
    }
    forall f | f in s.stack && f.TimerCallback? && f.timer == t
      ensures f.periodic
    {
      var c := ByTimer(t, f.serial);
      assert CallbackOn(s.stack, t, f.serial) && Owed(s, c) && Repeats(s, c);
      assert Gone(waits, f.serial);
    }
  }

  /** Some run without the application's help resumes the queue. */
  ghost predicate CanResume(s: State) {
    exists es :: Legal(s, es) && OnlyIdles(es) && Run(s, es).queues != [] && !Stopped(Run(s, es))
  }

  lemma ResumesExactlyFrom(s: State)
    requires Structure(s) && RunningGone(s) && HandlersAtBottom(s) && Stopped(s)
    ensures CanResume(s) <==> exists c :: Owed(s, c) && !Repeats(s, c)
  {
    if c :| Owed(s, c) && !Repeats(s, c) {
      var es := OwedResumes(s, c);
      assert Reaches(s, es, ByRouter);
    } else {
      OnlyRepeatsMeans(s);
      forall es | Legal(s, es) && OnlyIdles(es)
        ensures Stopped(Run(s, es))
      {
        PeriodicRun(s, es);
      }
    }
  }

  /**
   * A stopped queue can be resumed without the application's help, which means
   * that no operation is started, no timer is stopped and no request comes in,
   * exactly if something is owed to it that is not a periodic timer.
   */
  lemma ResumesExactly(es: seq<Event>)
    requires Legal(INIT, es) && Stopped(Run(INIT, es))
    ensures CanResume(Run(INIT, es)) <==> exists c :: Owed(Run(INIT, es), c) && !Repeats(Run(INIT, es), c)
  {
    HandlersRun(INIT, es);
    ResumesExactlyFrom(Run(INIT, es));
  }

  /** A periodic timer can be all that a stopped queue waits for. */
  lemma PeriodicTimerAlone() returns (es: seq<Event>)
    ensures Legal(INIT, es) && Stopped(Run(INIT, es)) && !CanResume(Run(INIT, es))
  {
    es := TimerStarted(true);
    var s := Run(INIT, es);
    assert s.timers[0].waits[0] == Wait(Armed, true, 0);
    assert forall c :: Owed(s, c) ==> c == ByTimer(0, 0);
    ResumesExactly(es);
  }
}
