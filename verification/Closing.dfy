/** How a connection closes, and what can still happen to it afterwards. */
module Closing {
  import opened Octets
  import opened Engine
  import opened EngineInvariant
  import opened EngineRuns
  import opened FifoRefinement

  // ---------------------------------------------------------------------------
  // Graceful close
  // ---------------------------------------------------------------------------

  lemma ClosingStep(s: State, e: Event)
    requires Inv(s) && Enabled(s, e) && s.writer.open && !Step(s, e).writer.open && !IsError(s.kind, e)
    ensures s.writer.wire == s.writer.accepted
  {
    var w := s.writer;
    match e {
      case WriteDone(i) =>
        if w.ops[i].len == 0 {
          EmptyWritten(w, i);
        } else {
          LiveWritten(w, i);
        }
      case _ =>
    }
    assert InFlight(w) == [] && w.nextWriteBuffer == [];
  }

  /** Unless an I/O error closes it, the socket is closed only when everything sent is on the wire. */
  lemma ClosesOnlyWhenDrained(kind: Kind, bufferSize: nat, es: seq<Event>, e: Event)
    requires Legal(Init(kind, bufferSize), es)
    requires var s := Run(Init(kind, bufferSize), es);
             Enabled(s, e) && s.writer.open && !Step(s, e).writer.open && !IsError(s.kind, e)
    ensures Run(Init(kind, bufferSize), es).writer.wire == SentBytes(es)
  {
    InvInit(kind, bufferSize);
    InvRun(Init(kind, bufferSize), es);
    AcceptedGrows(Init(kind, bufferSize), es);
    ClosingStep(Run(Init(kind, bufferSize), es), e);
  }

  /** The non-empty writes that must still complete before a requested close happens: at most two. */
  function Left(w: Writer): (n: nat)
    ensures n <= 2
  {
    (if Live(w) then 1 else 0) + (if w.nextWriteBuffer != [] then 1 else 0)
  }

  /** The successful completions of non-empty writes in a run. */
  function Completions(s: State, es: seq<Event>): nat
    requires Legal(s, es)
    decreases |es|
  {
    if es == [] then 0
    else (if es[0].WriteDone? && s.writer.ops[es[0].i].len > 0 then 1 else 0) + Completions(Step(s, es[0]), es[1..])
  }

  /** A close is requested and `left` completions away; with none left it has happened. */
  predicate Draining(w: Writer, left: nat) {
    && Control(w) && !Failed(w) && Left(w) == left
    && (if left > 0 then w.open && w.disconnectRequested else !w.open && !w.disconnectRequested)
  }

  lemma DrainingBegins(w: Writer)
    requires Control(w) && !Failed(w) && w.open
    ensures Draining(Disconnect(w), Left(w))
  {
  }

  lemma DrainingStep(s: State, e: Event, left: nat)
    requires Draining(s.writer, left) && Enabled(s, e) && !e.Send? && !IsError(s.kind, e)
    ensures var done := if e.WriteDone? && s.writer.ops[e.i].len > 0 then 1 else 0;
            done <= left && Draining(Step(s, e).writer, left - done)
  {
    var w := s.writer;
    match e {
      case Progress(i, n) => ControlTransfer(w, i, n);
      case WriteDone(i) =>
        if w.ops[i].len == 0 {
          EmptyWritten(w, i);
        } else {
          LiveWritten(w, i);
          ControlWritten(w, i);
        }
      case _ =>
    }
  }

  lemma {:induction false} DrainingRun(s: State, es: seq<Event>, left: nat)
    requires Draining(s.writer, left) && Legal(s, es) && SendCalls(es) == 0 && ErrorFree(s.kind, es)
    ensures Completions(s, es) <= left && Draining(Run(s, es).writer, left - Completions(s, es))
    decreases |es|
  {
    if es != [] {
      var done := if es[0].WriteDone? && s.writer.ops[es[0].i].len > 0 then 1 else 0;
      assert es[0] in es && forall e :: e in es[1..] ==> e in es;
      DrainingStep(s, es[0], left);
      DrainingRun(Step(s, es[0]), es[1..], left - done);
    }
  }

  /**
   * After `disconnect`, without further sends or errors, the socket is closed by
   * exactly the last completion that is due, and at most two are due.
   */
  lemma ClosesAfterDueCompletions(s: State, es: seq<Event>)
    requires Inv(s) && s.writer.open && !Failed(s.writer) && Enabled(s, AskDisconnect)
    requires Legal(Step(s, AskDisconnect), es) && SendCalls(es) == 0 && ErrorFree(s.kind, es)
    ensures var t := Step(s, AskDisconnect);
            && Completions(t, es) <= Left(s.writer) <= 2
            && (Run(t, es).writer.open <==> Completions(t, es) < Left(s.writer))
  {
    DrainingBegins(s.writer);
    DrainingRun(Step(s, AskDisconnect), es, Left(s.writer));
  }

  lemma StuckStep(s: State, e: Event)
    requires Inv(s) && s.kind == Client && Failed(s.writer) && s.writer.open && Enabled(s, e)
    ensures Step(s, e).kind == Client && Failed(Step(s, e).writer) && Step(s, e).writer.open
  {
    if e.WriteDone? {
      EmptyWritten(s.writer, e.i);
    }
  }

  /**
   * The client does not close the socket when a write fails, and as long as the
   * object lives nothing closes it then: the counter stays up, so that every
   * `disconnect` is deferred for ever.
   */
  lemma {:induction false} FailedClientNeverCloses(s: State, es: seq<Event>)
    requires Inv(s) && s.kind == Client && Failed(s.writer) && s.writer.open && Legal(s, es)
    ensures Run(s, es).writer.open && Run(s, es).writer.bytesToWrite > 0
    decreases |es|
  {
    if es != [] {
      InvStep(s, es[0]);
      StuckStep(s, es[0]);
      FailedClientNeverCloses(Step(s, es[0]), es[1..]);
    }
  }

  lemma Prepend(s: State, e: Event, es: seq<Event>)
    requires Enabled(s, e) && Legal(Step(s, e), es)
    ensures Legal(s, [e] + es) && Run(s, [e] + es) == Run(Step(s, e), es)
  {
    assert ([e] + es)[1..] == es;
  }

  /** The next event on the way to a requested close. */
  function Next(s: State): Event
    requires s.writer.started != [] && Last(s.writer) in s.writer.ops
  {
    var i := Last(s.writer);
    var op := s.writer.ops[i];
    if s.reader.consuming then ReceiveEnd
    else if op.sent < op.len then Progress(i, op.len - op.sent)
    else WriteDone(i)
  }

  /** A requested close can always be completed, if no write has failed. */
  lemma CompleteClose(s: State, left: nat) returns (es: seq<Event>)
    requires Inv(s) && Draining(s.writer, left)
    ensures Legal(s, es) && !Run(s, es).writer.open
    decreases left, s.reader.consuming, left > 0 && s.writer.ops[Last(s.writer)].sent < s.writer.ops[Last(s.writer)].len
  {
    if left == 0 {
      es := [];
    } else {
      var e := Next(s);
      InvStep(s, e);
      DrainingStep(s, e, left);
      es := CompleteClose(Step(s, e), if e.WriteDone? then left - 1 else left);
      Prepend(s, e, es);
      es := [e] + es;
    }
  }

  /** An open client connection can still be closed exactly if no write of it has failed. */
  lemma ClientCanCloseExactly(s: State)
    requires Inv(s) && s.kind == Client && s.writer.open
    ensures (exists es :: Legal(s, es) && !Run(s, es).writer.open) <==> !Failed(s.writer)
  {
    if Failed(s.writer) {
      forall es | Legal(s, es)
        ensures Run(s, es).writer.open
      {
        FailedClientNeverCloses(s, es);
      }
    } else {
      InvStep(s, AskDisconnect);
      DrainingBegins(s.writer);
      var es := CompleteClose(Step(s, AskDisconnect), Left(s.writer));
      Prepend(s, AskDisconnect, es);
      assert Legal(s, [AskDisconnect] + es);
    }
  }

  /** A write of the client can fail while the socket is open. */
  lemma ClientWriteFails(bufferSize: nat) returns (es: seq<Event>)
    ensures Legal(Init(Client, bufferSize), es)
    ensures var s := Run(Init(Client, bufferSize), es);
            s.kind == Client && s.writer.open && Failed(s.writer)
  {
    var s := Init(Client, bufferSize);
    var u := Step(s, Send([1]));
    assert u.writer.ops == map[0 := WriteOp(1, 0)] && u.writer.writeBuffer == [1];
    Prepend(u, WriteFail(0), []);
    Prepend(s, Send([1]), [WriteFail(0)] + []);
    es := [Send([1])] + ([WriteFail(0)] + []);
  }

  // ---------------------------------------------------------------------------
  // After the close
  // ---------------------------------------------------------------------------

  function NonEmpty(parts: seq<Bytes>): nat {
    if parts == [] then 0 else NonEmpty(parts[..|parts| - 1]) + if parts[|parts| - 1] != [] then 1 else 0
  }

  lemma NonEmptySnoc(parts: seq<Bytes>, last: Bytes)
    ensures NonEmpty(parts + [last]) == NonEmpty(parts) + if last != [] then 1 else 0
  {
    assert (parts + [last])[..|parts|] == parts;
  }

  /** The live write has handed over everything and waits for its handler. */
  predicate Completed(w: Writer) {
    Live(w) && w.ops[Last(w)].sent == w.ops[Last(w)].len
  }

  /** Whether a closed connection can still start a non-empty write. */
  function WriteCredit(w: Writer): nat {
    if w.bytesToWrite == 0 || Completed(w) then 1 else 0
  }

  /** Whether a closed connection can still start a read. */
  function ReadCredit(kind: Kind, r: Reader): nat {
    if kind == Server && (r.consuming || (r.ops != [] && r.ops[0].Arrived?)) then 1 else 0
  }

  /** Outstanding writes, counting twice one whose end may start another. */
  function WriteWeight(w: Writer): nat {
    |w.ops| + if Completed(w) then 1 else 0
  }

  /** A bound on the handlers that a closed connection is still going to run. */
  function Weight(s: State): nat {
    var r := s.reader;
    WriteWeight(s.writer)
    + if r.consuming then 2 else if r.ops == [] then 0 else if r.ops[0].Arrived? then 3 else 1
  }

  /** The library's calls; every other event is a handler or asio's own progress. */
  predicate IsCall(e: Event) {
    e.Send? || e.AskDisconnect?
  }

  function HandlersRun(es: seq<Event>): nat {
    if es == [] then 0 else (if IsCall(es[0]) then 0 else 1) + HandlersRun(es[1..])
  }

  /** From `w` to `t` a closed writer uses its credit for whatever it starts. */
  predicate CreditOk(w: Writer, t: Writer) {
    && Control(t) && !t.open
    && NonEmpty(t.started) + WriteCredit(t) <= NonEmpty(w.started) + WriteCredit(w)
  }

  lemma ClosedSend(w: Writer, data: Bytes)
    requires Control(w) && !w.open && |w.nextWriteBuffer| + |data| < SIZE_MODULUS
    ensures CreditOk(w, SendData(w, data)) && WriteWeight(SendData(w, data)) <= WriteWeight(w) + 1
  {
    ControlSend(w, data);
    NonEmptySnoc(w.started, data);
  }

  lemma ClosedEmptyWritten(w: Writer, i: nat)
    requires Control(w) && !w.open && i in w.ops && w.ops[i].sent == w.ops[i].len == 0
    ensures CreditOk(w, HandleWritten(w, i)) && WriteWeight(HandleWritten(w, i)) < WriteWeight(w)
  {
    RemoveOne(w.ops, i);
    EmptyWritten(w, i);
  }

  lemma ClosedLiveWritten(w: Writer, i: nat)
    requires Control(w) && !w.open && i in w.ops && w.ops[i].sent == w.ops[i].len > 0
    ensures CreditOk(w, HandleWritten(w, i)) && WriteWeight(HandleWritten(w, i)) < WriteWeight(w)
  {
    var t := HandleWritten(w, i);
    LiveWritten(w, i);
    ControlWritten(w, i);
    assert WriteCredit(w) == 1 && WriteWeight(w) == |w.ops| + 1;
    if w.nextWriteBuffer != [] {
      NonEmptySnoc(w.started, w.nextWriteBuffer);
      assert t.owners == |t.ops| == w.owners && !Completed(t);
    } else {
      assert t.owners == |t.ops| == w.owners - 1 && t.started == w.started;
    }
  }

  lemma ClosedError(kind: Kind, w: Writer, i: nat)
    requires Control(w) && !w.open
    requires i in w.ops && (w.ops[i].sent < w.ops[i].len || w.ops[i].sent == w.ops[i].len == 0)
    ensures CreditOk(w, HandleWriteError(kind, w, i)) && WriteWeight(HandleWriteError(kind, w, i)) < WriteWeight(w)
  {
    RemoveOne(w.ops, i);
    ControlError(kind, w, i);
  }

  lemma ClosedWriterStep(s: State, e: Event)
    requires Control(s.writer) && Enabled(s, e) && !s.writer.open
    ensures CreditOk(s.writer, Step(s, e).writer)
    ensures WriteWeight(Step(s, e).writer)
         <= WriteWeight(s.writer) + if e.Send? then 1 else if e.WriteDone? || e.WriteFail? then -1 else 0
  {
    match e {
      case Send(data) => ClosedSend(s.writer, data);
      case WriteDone(i) =>
        if s.writer.ops[i].len == 0 { ClosedEmptyWritten(s.writer, i); } else { ClosedLiveWritten(s.writer, i); }
      case WriteFail(i) => ClosedError(s.kind, s.writer, i);
      case _ =>
    }
  }

  lemma ClosedReaderStep(s: State, e: Event)
    requires ReaderInv(s.reader) && Enabled(s, e) && !s.writer.open
    ensures var r, t := s.reader, Step(s, e).reader;
            && ReaderInv(t)
            && t.started + ReadCredit(s.kind, t) <= r.started + ReadCredit(s.kind, r)
  {
    ReaderStep(s, e);
  }

  lemma ClosedStep(s: State, e: Event)
    requires Control(s.writer) && ReaderInv(s.reader) && Enabled(s, e) && !s.writer.open
    ensures Weight(Step(s, e)) <= Weight(s) + if e.Send? then 1 else if e.AskDisconnect? then 0 else -1
  {
    ClosedWriterStep(s, e);
    ReaderStep(s, e);
  }

  lemma {:induction false} ClosedRun(s: State, es: seq<Event>)
    requires Control(s.writer) && ReaderInv(s.reader) && Legal(s, es) && !s.writer.open
    ensures var t := Run(s, es);
            && Control(t.writer) && ReaderInv(t.reader) && !t.writer.open
            && NonEmpty(t.writer.started) + WriteCredit(t.writer) <= NonEmpty(s.writer.started) + WriteCredit(s.writer)
            && t.reader.started + ReadCredit(s.kind, t.reader) <= s.reader.started + ReadCredit(s.kind, s.reader)
            && HandlersRun(es) + Weight(t) <= Weight(s) + SendCalls(es)
    decreases |es|
  {
    if es != [] {
      ClosedWriterStep(s, es[0]);
      ClosedReaderStep(s, es[0]);
      ClosedStep(s, es[0]);
      ClosedRun(Step(s, es[0]), es[1..]);
    }
  }

  /**
   * A closed connection stays closed; it starts at most one more non-empty
   * write and one more read (none on the client side), and it runs no more
   * handlers than were due plus one for every further send.
   */
  lemma BoundedAfterClose(s: State, es: seq<Event>)
    requires Inv(s) && Legal(s, es) && !s.writer.open
    ensures var t := Run(s, es);
            && !t.writer.open
            && NonEmpty(t.writer.started) <= NonEmpty(s.writer.started) + 1
            && t.reader.started <= s.reader.started + (if s.kind == Server then 1 else 0)
            && HandlersRun(es) <= Weight(s) + SendCalls(es)
            && Weight(s) <= |s.writer.ops| + 4
  {
    ClosedRun(s, es);
  }

  // ---------------------------------------------------------------------------
  // Ownership by handlers
  // ---------------------------------------------------------------------------

  /** Whatever is outstanding on a closed connection has a handler that can run: it never gets stuck. */
  lemma SomeHandlerIsDue(s: State) returns (e: Event)
    requires Inv(s) && !s.writer.open && (s.writer.ops != map[] || s.reader.ops != [] || s.reader.consuming)
    ensures Enabled(s, e) && !IsCall(e)
  {
    var w, r := s.writer, s.reader;
    if r.consuming {
      e := ReceiveEnd;
    } else if r.ops != [] {
      e := if r.ops[0].Arrived? then ReceiveBegin(0) else ReadFail(0, true);
    } else {
      var i :| i in w.ops;
      e := if w.ops[i].sent == w.ops[i].len then WriteDone(i) else WriteFail(i);
    }
  }

  /**
   * A server connection is released exactly when none of its handlers is
   * outstanding or running, and from then on nothing can call into it.
   */
  lemma ReleasedWhenNothingIsDue(bufferSize: nat, es: seq<Event>)
    requires Legal(Init(Server, bufferSize), es)
    ensures var s := Run(Init(Server, bufferSize), es);
            && (Alive(s) <==> s.writer.ops != map[] || s.reader.ops != [] || s.reader.consuming)
            && (!Alive(s) ==> forall e :: !Enabled(s, e))
  {
    InvInit(Server, bufferSize);
    InvRun(Init(Server, bufferSize), es);
    KindIsKept(Init(Server, bufferSize), es);
    var w := Run(Init(Server, bufferSize), es).writer;
    assert |w.ops| == 0 <==> w.ops == map[];
  }

  lemma {:induction false} KindIsKept(s: State, es: seq<Event>)
    requires Legal(s, es)
    ensures Run(s, es).kind == s.kind
    decreases |es|
  {
    if es != [] {
      KindIsKept(Step(s, es[0]), es[1..]);
    }
  }

  /** A closed server connection on which no handler can run any more is released. */
  lemma ReleasedAfterClose(s: State, es: seq<Event>)
    requires Inv(s) && s.kind == Server && !s.writer.open && Legal(s, es)
    requires forall e :: Enabled(Run(s, es), e) ==> IsCall(e)
    ensures !Alive(Run(s, es))
  {
    var t := Run(s, es);
    InvRun(s, es);
    ClosedRun(s, es);
    KindIsKept(s, es);
    if t.writer.ops != map[] || t.reader.ops != [] || t.reader.consuming {
      var e := SomeHandlerIsDue(t);
    }
  }
}
