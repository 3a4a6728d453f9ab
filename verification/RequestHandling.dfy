/**
 * Who may answer a request: `Connection::processRequest`, `ResponseSender`,
 * `ResponseContext` and `Responder`.
 *
 * Every request gets a new context, but all contexts of a connection refer to
 * the same `responseSender_` slot, whose content each request replaces. A
 * `Responder` holds its context weakly: it acts only while some shared_ptr still
 * owns that context.
 *
 * Assumed of the FastCGI library: a response object is valid until its first
 * `send`, and answers the request it was created for.
 */
module RequestHandling {
  import opened Options

  datatype Reply = Reply(status: nat, body: string, errorMsg: string)

  /** The reply sent for a request processor that throws. */
  const SERVER_ERROR := Reply(500, "", "")

  /** `fcgi::Response` inside `ResponseSender`. */
  datatype Token = Token(request: nat, valid: bool)

  datatype State = State(
    sender: Option<Token>,          // responseSender_
    context: Option<nat>,           // responseContext_, by creation order
    owners: seq<nat>,               // shared_ptr copies of every context ever made
    log: seq<(nat, Reply)>)         // replies issued, with the request they answer

  const INIT := State(None, None, [], [])

  // ---------------------------------------------------------------------------
  // ResponseSender and Responder
  // ---------------------------------------------------------------------------

  function SenderSend(s: State, reply: Reply): State {
    if s.sender.None? || !s.sender.value.valid then s
    else s.(sender := Some(s.sender.value.(valid := false)), log := s.log + [(s.sender.value.request, reply)])
  }

  /** `lock()` on the weak pointer of the responder made with context `c`. */
  predicate Locks(s: State, c: nat) {
    c < |s.owners| && s.owners[c] > 0
  }

  function ResponderSend(s: State, c: nat, reply: Reply): State {
    if Locks(s, c) then SenderSend(s, reply) else s
  }

  predicate IsSent(s: State, c: nat) {
    Locks(s, c) ==> s.sender.None? || !s.sender.value.valid
  }

  // ---------------------------------------------------------------------------
  // processRequest
  // ---------------------------------------------------------------------------

  /** How a request processor ends: without a value, with one, or with an exception. */
  datatype Outcome = Returned | Value(reply: Reply) | Threw

  /** A `send` on the responder made with context `responder`. */
  datatype Call = Call(responder: nat, reply: Reply)

  function Emplace(s: State, request: nat): State {
    s.(sender := Some(Token(request, true)))
  }

  function Own(s: State, c: nat): State
    requires c < |s.owners|
  {
    s.(owners := s.owners[c := s.owners[c] + 1])
  }

  function Disown(s: State, c: nat): State
    requires c < |s.owners|
  {
    if s.owners[c] > 0 then s.(owners := s.owners[c := s.owners[c] - 1]) else s
  }

  /** Assigning the new context releases the previous one. */
  function MakeContext(s: State): State {
    var made := s.(context := Some(|s.owners|), owners := s.owners + [1]);
    if s.context.Some? && s.context.value < |s.owners| then Disown(made, s.context.value) else made
  }

  function Perform(s: State, calls: seq<Call>): State
    decreases |calls|
  {
    if calls == [] then s else Perform(ResponderSend(s, calls[0].responder, calls[0].reply), calls[1..])
  }

  /** Up to the call of the request processor, which holds a copy of the context. */
  function Enter(s: State): State {
    Own(MakeContext(Emplace(s, |s.owners|)), |s.owners|)
  }

  function Leave(s: State, c: nat, outcome: Outcome): State
    requires c < |s.owners|
  {
    match outcome
    case Returned => Disown(s, c)
    case Value(reply) => Disown(ResponderSend(s, c, reply), c)
    case Threw => ResponderSend(Disown(s, c), c, SERVER_ERROR)
  }

  lemma PerformKeepsOwners(s: State, calls: seq<Call>)
    ensures Perform(s, calls).owners == s.owners && Perform(s, calls).context == s.context
    decreases |calls|
  {
    if calls != [] {
      PerformKeepsOwners(ResponderSend(s, calls[0].responder, calls[0].reply), calls[1..]);
    }
  }

  function ProcessRequest(s: State, calls: seq<Call>, outcome: Outcome): State {
    PerformKeepsOwners(Enter(s), calls);
    Leave(Perform(Enter(s), calls), |s.owners|, outcome)
  }

  /** The class of `src/connection.cpp`, as far as it handles requests. */
  class Connection {
    var responseSender: Option<Token>
    var responseContext: Option<nat>
    var owners: seq<nat>
    ghost var log: seq<(nat, Reply)>

    ghost function Now(): State
      reads this
    {
      State(responseSender, responseContext, owners, log)
    }

    constructor ()
      ensures Now() == INIT
    {
      responseSender, responseContext, owners, log := None, None, [], [];
    }

    /** `Responder::send` on the responder made with context `c`. */
    method Send(c: nat, reply: Reply)
      modifies this
      ensures Now() == ResponderSend(old(Now()), c, reply)
    {
      if c < |owners| && owners[c] > 0 && responseSender.Some? && responseSender.value.valid {
        log := log + [(responseSender.value.request, reply)];
        responseSender := Some(responseSender.value.(valid := false));
      }
    }

    /** `Responder::isSent` on the responder made with context `c`. */
    method Sent(c: nat) returns (sent: bool)
      ensures sent == IsSent(Now(), c)
    {
      if c < |owners| && owners[c] > 0 {
        return responseSender.None? || !responseSender.value.valid;
      }
      return true;
    }

    /** The sends that a request processor makes. */
    method PerformCalls(calls: seq<Call>)
      modifies this
      ensures Now() == Perform(old(Now()), calls) && owners == old(owners)
    {
      ghost var before := Now();
      var i := 0;
      while i < |calls|
        invariant 0 <= i <= |calls|
        invariant Perform(Now(), calls[i..]) == Perform(before, calls)
        invariant owners == before.owners
      {
        Send(calls[i].responder, calls[i].reply);
        assert calls[i..][1..] == calls[i + 1..];
        i := i + 1;
      }
    }

    /** Handles one request; `calls` and `outcome` are what the request processor does. */
    method HandleRequest(calls: seq<Call>, outcome: Outcome)
      modifies this
      ensures Now() == ProcessRequest(old(Now()), calls, outcome)
    {
      var c := |owners|;
      responseSender := Some(Token(c, true));
      owners := owners + [1];
      if responseContext.Some? && responseContext.value < c && owners[responseContext.value] > 0 {
        owners := owners[responseContext.value := owners[responseContext.value] - 1];
      }
      responseContext := Some(c);
      owners := owners[c := owners[c] + 1];
      ghost var entered := Now();
      assert entered == Enter(old(Now()));
      PerformCalls(calls);
      match outcome {
        case Returned =>
          owners := owners[c := owners[c] - 1];
        case Value(reply) =>
          Send(c, reply);
          owners := owners[c := owners[c] - 1];
        case Threw =>
          owners := owners[c := owners[c] - 1];
          Send(c, SERVER_ERROR);
      }
    }
  }

  // ---------------------------------------------------------------------------
  // Runs
  // ---------------------------------------------------------------------------

  /** A request with what its processor does, or a send after `processRequest` has returned. */
  datatype Event = Request(calls: seq<Call>, outcome: Outcome) | Late(call: Call)

  function Step(s: State, e: Event): State {
    match e
    case Request(calls, outcome) => ProcessRequest(s, calls, outcome)
    case Late(call) => ResponderSend(s, call.responder, call.reply)
  }

  function Run(s: State, es: seq<Event>): State
    decreases |es|
  {
    if es == [] then s else Run(Step(s, es[0]), es[1..])
  }

  /** The replies that answered request `k`. */
  function RepliesTo(log: seq<(nat, Reply)>, k: nat): seq<Reply> {
    if log == [] then []
    else RepliesTo(log[..|log| - 1], k) + if log[|log| - 1].0 == k then [log[|log| - 1].1] else []
  }

  // What an observer who knows nothing of slots and contexts expects: request k
  // is answered by the first of the sends made for it before the next request.

  function CallsFor(calls: seq<Call>, k: nat): seq<Reply> {
    if calls == [] then []
    else (if calls[0].responder == k then [calls[0].reply] else []) + CallsFor(calls[1..], k)
  }

  function OutcomeReplies(outcome: Outcome): seq<Reply> {
    match outcome
    case Returned => []
    case Value(reply) => [reply]
    case Threw => [SERVER_ERROR]
  }

  /** The sends that event `e` makes for request `k`, when `made` requests came before it. */
  function AttemptsOf(e: Event, k: nat, made: nat): seq<Reply> {
    match e
    case Request(calls, outcome) => if made == k then CallsFor(calls, k) + OutcomeReplies(outcome) else []
    case Late(call) => if made == k + 1 && call.responder == k then [call.reply] else []
  }

  function Attempts(es: seq<Event>, k: nat, made: nat): seq<Reply> {
    if es == [] then []
    else AttemptsOf(es[0], k, made) + Attempts(es[1..], k, made + if es[0].Request? then 1 else 0)
  }

  function First<T>(s: seq<T>): seq<T> {
    if s == [] then [] else [s[0]]
  }

  // ---------------------------------------------------------------------------
  // Invariant
  // ---------------------------------------------------------------------------

  /** Only the last context is owned, and the slot holds the token of its request. */
  ghost predicate Inv(s: State) {
    && (s.context.None? ==> s == INIT)
    && (s.context.Some? ==>
          && |s.owners| == s.context.value + 1 && s.owners[s.context.value] > 0
          && (forall c :: 0 <= c < s.context.value ==> s.owners[c] == 0)
          && s.sender.Some? && s.sender.value.request == s.context.value
          && (s.sender.value.valid <==> RepliesTo(s.log, s.context.value) == []))
    && (forall i :: 0 <= i < |s.log| ==> s.log[i].0 < |s.owners|)
    && (forall k: nat :: |RepliesTo(s.log, k)| <= 1)
  }

  /** Between events only `responseContext_` owns a context. */
  ghost predicate Settled(s: State) {
    Inv(s) && (s.context.Some? ==> s.owners[s.context.value] == 1)
  }

  lemma {:induction false} NoRepliesYet(log: seq<(nat, Reply)>, k: nat)
    requires forall i :: 0 <= i < |log| ==> log[i].0 < k
    ensures RepliesTo(log, k) == []
  {
    if log != [] {
      NoRepliesYet(log[..|log| - 1], k);
    }
  }

  lemma RepliesSnoc(log: seq<(nat, Reply)>, request: nat, reply: Reply, k: nat)
    ensures RepliesTo(log + [(request, reply)], k) == RepliesTo(log, k) + if request == k then [reply] else []
  {
    assert (log + [(request, reply)])[..|log|] == log;
  }

  /** The replies to request `k` after the sends `more`, when `on` says that it may be answered. */
  function Answered(s: State, k: nat, on: bool, more: seq<Reply>): seq<Reply> {
    if on then First(RepliesTo(s.log, k) + more) else RepliesTo(s.log, k)
  }

  lemma FirstOfOne<T>(a: seq<T>, b: T)
    requires |a| <= 1
    ensures a != [] ==> First(a + [b]) == a
    ensures a == [] ==> First(a + [b]) == [b]
  {
  }

  /** What a send needs to know about the replies to requests `c` and `k`. */
  predicate SlotOk(s: State, c: nat, k: nat) {
    && (Locks(s, c) <==> s.context == Some(c))
    && (s.context == Some(c) ==>
          s.sender.Some? && s.sender.value.request == c && (s.sender.value.valid <==> RepliesTo(s.log, c) == []))
    && |RepliesTo(s.log, k)| <= 1
  }

  lemma SendAnswers(s: State, c: nat, reply: Reply, k: nat)
    requires SlotOk(s, c, k)
    ensures var t := ResponderSend(s, c, reply);
            && RepliesTo(t.log, k) == Answered(s, k, k == c && s.context == Some(c), [reply])
            && |RepliesTo(t.log, k)| <= 1
  {
    if s.context == Some(c) {
      if s.sender.value.valid {
        RepliesSnoc(s.log, c, reply, k);
      } else {
        FirstOfOne(RepliesTo(s.log, k), reply);
      }
    }
  }

  /** A send answers the request of its responder, first come first served, and no other request. */
  lemma SendStep(s: State, c: nat, reply: Reply)
    requires Inv(s)
    ensures var t := ResponderSend(s, c, reply);
            && Inv(t)
            && (forall k: nat :: RepliesTo(t.log, k) == Answered(s, k, k == c && s.context == Some(c), [reply]))
  {
    var t := ResponderSend(s, c, reply);
    forall k: nat
      ensures RepliesTo(t.log, k) == Answered(s, k, k == c && s.context == Some(c), [reply])
      ensures |RepliesTo(t.log, k)| <= 1
    {
      SendAnswers(s, c, reply, k);
    }
  }

  lemma FirstOfFirst<T>(a: seq<T>, b: seq<T>, c: seq<T>)
    ensures First(First(a + b) + c) == First(a + (b + c))
  {
  }

  lemma {:induction false} PerformRun(s: State, calls: seq<Call>)
    requires Inv(s) && s.context.Some?
    ensures var t := Perform(s, calls);
            && Inv(t) && t.owners == s.owners && t.context == s.context
            && (forall k: nat :: RepliesTo(t.log, k) == Answered(s, k, s.context == Some(k), CallsFor(calls, k)))
    decreases |calls|
  {
    if calls != [] {
      var c, reply := calls[0].responder, calls[0].reply;
      var u := ResponderSend(s, c, reply);
      SendStep(s, c, reply);
      PerformRun(u, calls[1..]);
      forall k: nat
        ensures RepliesTo(Perform(s, calls).log, k) == Answered(s, k, s.context == Some(k), CallsFor(calls, k))
      {
        if c == k {
          FirstOfFirst(RepliesTo(s.log, k), [reply], CallsFor(calls[1..], k));
        }
      }
    }
  }

  /** Entering `processRequest` cuts off every earlier responder at once. */
  lemma EnterStep(s: State)
    requires Settled(s)
    ensures var t := Enter(s);
            && Inv(t) && t.context == Some(|s.owners|) && t.log == s.log && |t.owners| == |s.owners| + 1
            && t.owners[|s.owners|] == 2 && RepliesTo(t.log, |s.owners|) == []
  {
    NoRepliesYet(s.log, |s.owners|);
  }

  lemma FirstAlone<T>(a: seq<T>)
    requires |a| <= 1
    ensures First(a + []) == a
  {
  }

  /** The request processor's copy of the context goes. */
  lemma DisownStep(s: State, c: nat)
    requires Inv(s) && s.context == Some(c) && s.owners[c] == 2
    ensures var t := Disown(s, c);
            Settled(t) && t.context == s.context && |t.owners| == |s.owners| && t.log == s.log
  {
  }

  lemma LeaveStep(s: State, c: nat, outcome: Outcome)
    requires Inv(s) && s.context == Some(c) && s.owners[c] == 2
    ensures var t := Leave(s, c, outcome);
            && Settled(t) && |t.owners| == |s.owners|
            && (forall k: nat :: RepliesTo(t.log, k) == Answered(s, k, k == c, OutcomeReplies(outcome)))
  {
    match outcome {
      case Returned =>
        DisownStep(s, c);
        FirstAlone(RepliesTo(s.log, c));
      case Value(reply) =>
        SendStep(s, c, reply);
        DisownStep(ResponderSend(s, c, reply), c);
      case Threw =>
        DisownStep(s, c);
        SendStep(Disown(s, c), c, SERVER_ERROR);
    }
  }

  lemma RequestStep(s: State, calls: seq<Call>, outcome: Outcome)
    requires Settled(s)
    ensures var t := ProcessRequest(s, calls, outcome);
            && Settled(t) && |t.owners| == |s.owners| + 1
            && (forall k: nat :: RepliesTo(t.log, k)
                  == if k == |s.owners| then First(CallsFor(calls, k) + OutcomeReplies(outcome))
                     else RepliesTo(s.log, k))
  {
    var c := |s.owners|;
    EnterStep(s);
    PerformRun(Enter(s), calls);
    LeaveStep(Perform(Enter(s), calls), c, outcome);
    FirstOfFirst([], CallsFor(calls, c), OutcomeReplies(outcome));
    assert [] + CallsFor(calls, c) == CallsFor(calls, c);
    assert [] + (CallsFor(calls, c) + OutcomeReplies(outcome)) == CallsFor(calls, c) + OutcomeReplies(outcome);
  }

  lemma FirstOfAttempts(before: seq<Reply>, attempts: seq<Reply>, on: bool)
    requires |before| <= 1 && (on ==> before == [])
    ensures First(before + if on then attempts else []) == if on then First(attempts) else before
  {
    if on {
      assert [] + attempts == attempts;
    } else {
      FirstAlone(before);
    }
  }

  lemma RequestEvent(s: State, calls: seq<Call>, outcome: Outcome, k: nat)
    requires Settled(s)
    ensures var t := ProcessRequest(s, calls, outcome);
            && Settled(t) && |t.owners| == |s.owners| + 1
            && RepliesTo(t.log, k) == First(RepliesTo(s.log, k) + AttemptsOf(Request(calls, outcome), k, |s.owners|))
  {
    RequestStep(s, calls, outcome);
    if k == |s.owners| {
      NoRepliesYet(s.log, k);
    }
    FirstOfAttempts(RepliesTo(s.log, k), CallsFor(calls, k) + OutcomeReplies(outcome), k == |s.owners|);
  }

  lemma LateEvent(s: State, call: Call, k: nat)
    requires Settled(s)
    ensures var t := ResponderSend(s, call.responder, call.reply);
            && Settled(t) && |t.owners| == |s.owners|
            && RepliesTo(t.log, k) == First(RepliesTo(s.log, k) + AttemptsOf(Late(call), k, |s.owners|))
  {
    SendStep(s, call.responder, call.reply);
    if !(k == call.responder && s.context == Some(k)) {
      FirstAlone(RepliesTo(s.log, k));
    }
  }

  lemma EventStep(s: State, e: Event, k: nat)
    requires Settled(s)
    ensures Settled(Step(s, e))
    ensures |Step(s, e).owners| == |s.owners| + if e.Request? then 1 else 0
    ensures RepliesTo(Step(s, e).log, k) == First(RepliesTo(s.log, k) + AttemptsOf(e, k, |s.owners|))
  {
    match e {
      case Request(calls, outcome) => RequestEvent(s, calls, outcome, k);
      case Late(call) => LateEvent(s, call, k);
    }
  }

  lemma {:induction false} RunAnswers(s: State, es: seq<Event>, k: nat)
    requires Settled(s)
    ensures Settled(Run(s, es))
    ensures RepliesTo(Run(s, es).log, k) == First(RepliesTo(s.log, k) + Attempts(es, k, |s.owners|))
    decreases |es|
  {
    if es != [] {
      var t := Step(s, es[0]);
      EventStep(s, es[0], k);
      RunAnswers(t, es[1..], k);
      FirstOfFirst(RepliesTo(s.log, k), AttemptsOf(es[0], k, |s.owners|), Attempts(es[1..], k, |t.owners|));
    }
  }

  // ---------------------------------------------------------------------------
  // Main results
  // ---------------------------------------------------------------------------

  /**
   * In every run request `k` is answered by exactly the first of the sends made
   * for it while it is the current request, and by nothing else: no send through
   * a responder of another request ever answers it, although all of them lead to
   * the same slot.
   */
  lemma AnsweredByItsFirstSend(es: seq<Event>, k: nat)
    ensures RepliesTo(Run(INIT, es).log, k) == First(Attempts(es, k, 0))
  {
    RunAnswers(INIT, es, k);
  }

  /**
   * Exactly one reply when the processor returns a value or throws, and no other
   * one ever after: the first that was sent. A processor that throws before it has
   * sent anything is answered with status 500 and no error message.
   */
  lemma ExactlyOneReply(es: seq<Event>, calls: seq<Call>, outcome: Outcome, more: seq<Event>)
    requires outcome != Returned
    ensures var s := Run(INIT, es);
            var k, t := |s.owners|, ProcessRequest(s, calls, outcome);
            RepliesTo(t.log, k) == RepliesTo(Run(t, more).log, k)
              == [if CallsFor(calls, k) != [] then CallsFor(calls, k)[0]
                  else if outcome.Value? then outcome.reply else Reply(500, "", "")]
  {
    RunAnswers(INIT, es, 0);
    RequestStep(Run(INIT, es), calls, outcome);
    RunAnswers(ProcessRequest(Run(INIT, es), calls, outcome), more, |Run(INIT, es).owners|);
  }

  /** For a responder of an existing request, `isSent` means answered or no longer current. */
  lemma SentMeansAnsweredOrOver(es: seq<Event>, c: nat)
    requires c < |Run(INIT, es).owners|
    ensures var s := Run(INIT, es);
            IsSent(s, c) <==> c + 1 < |s.owners| || RepliesTo(s.log, c) != []
  {
    RunAnswers(INIT, es, c);
  }

  /** `isSent` never goes back to false. */
  lemma {:induction false} SentIsForEver(s: State, es: seq<Event>, c: nat)
    requires Settled(s) && c < |s.owners| && IsSent(s, c)
    ensures IsSent(Run(s, es), c) && c < |Run(s, es).owners|
    decreases |es|
  {
    if es != [] {
      EventStep(s, es[0], c);
      SentIsForEver(Step(s, es[0]), es[1..], c);
    }
  }
}
