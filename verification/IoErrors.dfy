/** What failed reads and writes do to a connection, and that it keeps reading as long as they do not happen. */
module IoErrors {
  import opened Octets
  import opened Engine
  import opened EngineInvariant
  import opened EngineRuns
  import opened Closing

  // ---------------------------------------------------------------------------
  // Errors
  // ---------------------------------------------------------------------------

  /** A server connection closes when a write fails, also one without bytes. */
  lemma ServerWriteErrorCloses(bufferSize: nat, es: seq<Event>, i: nat)
    requires Legal(Init(Server, bufferSize), es) && Enabled(Run(Init(Server, bufferSize), es), WriteFail(i))
    ensures !Step(Run(Init(Server, bufferSize), es), WriteFail(i)).writer.open
  {
    KindIsKept(Init(Server, bufferSize), es);
  }

  /** A failed read closes a server connection, unless it was aborted. */
  lemma ServerReadErrorClosesExactly(bufferSize: nat, es: seq<Event>, i: nat, aborted: bool)
    requires Legal(Init(Server, bufferSize), es)
    requires var s := Run(Init(Server, bufferSize), es);
             Enabled(s, ReadFail(i, aborted)) && s.writer.open
    ensures Step(Run(Init(Server, bufferSize), es), ReadFail(i, aborted)).writer.open <==> aborted
  {
    KindIsKept(Init(Server, bufferSize), es);
  }

  /** No error closes a client connection, or does anything else to what it has sent and will send. */
  lemma ClientErrorsCloseNothing(bufferSize: nat, es: seq<Event>, e: Event)
    requires Legal(Init(Client, bufferSize), es) && Enabled(Run(Init(Client, bufferSize), es), e)
    requires e.ReadFail? || e.WriteFail?
    ensures var s, t := Run(Init(Client, bufferSize), es), Step(Run(Init(Client, bufferSize), es), e);
            && t.writer.open == s.writer.open && t.writer.disconnectRequested == s.writer.disconnectRequested
            && t.writer.bytesToWrite == s.writer.bytesToWrite && t.writer.wire == s.writer.wire
            && t.writer.nextWriteBuffer == s.writer.nextWriteBuffer
  {
    KindIsKept(Init(Client, bufferSize), es);
  }

  lemma FailedClosedStep(s: State, e: Event)
    requires Inv(s) && s.kind == Server && Enabled(s, e) && (Failed(s.writer) ==> !s.writer.open)
    ensures Failed(Step(s, e).writer) ==> !Step(s, e).writer.open
  {
    if Failed(s.writer) {
      ClosedWriterStep(s, e);
    } else {
      FailureBegins(s, e);
    }
  }

  lemma {:induction false} FailedClosedRun(s: State, es: seq<Event>)
    requires Inv(s) && s.kind == Server && Legal(s, es) && (Failed(s.writer) ==> !s.writer.open)
    ensures Failed(Run(s, es).writer) ==> !Run(s, es).writer.open
    decreases |es|
  {
    if es != [] {
      InvStep(s, es[0]);
      FailedClosedStep(s, es[0]);
      FailedClosedRun(Step(s, es[0]), es[1..]);
    }
  }

  /** In every reachable state a server connection whose write has failed is closed. */
  lemma FailedServerIsClosed(bufferSize: nat, es: seq<Event>)
    requires Legal(Init(Server, bufferSize), es)
    ensures var s := Run(Init(Server, bufferSize), es);
            Failed(s.writer) ==> !s.writer.open
  {
    InvInit(Server, bufferSize);
    FailedClosedRun(Init(Server, bufferSize), es);
  }

  /** Nothing reaches or leaves a closed connection, of either kind, and it stays closed. */
  lemma {:induction false} ClosedMovesNothing(s: State, es: seq<Event>)
    requires Inv(s) && !s.writer.open && Legal(s, es)
    ensures var t := Run(s, es);
            !t.writer.open && t.writer.wire == s.writer.wire && t.reader.arrived == s.reader.arrived
    decreases |es|
  {
    if es != [] {
      InvStep(s, es[0]);
      ClosedMoves(s, es[0]);
      ClosedMovesNothing(Step(s, es[0]), es[1..]);
    }
  }

  lemma ClosedMoves(s: State, e: Event)
    requires Inv(s) && !s.writer.open && Enabled(s, e)
    ensures var t := Step(s, e);
            !t.writer.open && t.writer.wire == s.writer.wire && t.reader.arrived == s.reader.arrived
  {
    ClosedWriterStep(s, e);
  }

  /** The I/O errors after which a server connection is over. */
  predicate Fatal(e: Event) {
    e.WriteFail? || (e.ReadFail? && !e.aborted)
  }

  /** After such an error nothing more is sent or received, whatever the library and the handlers do. */
  lemma ServerErrorEndsTraffic(bufferSize: nat, es: seq<Event>, e: Event, more: seq<Event>)
    requires Legal(Init(Server, bufferSize), es) && Enabled(Run(Init(Server, bufferSize), es), e) && Fatal(e)
    requires Legal(Step(Run(Init(Server, bufferSize), es), e), more)
    ensures var s := Run(Init(Server, bufferSize), es);
            var t := Run(Step(s, e), more);
            !t.writer.open && t.writer.wire == s.writer.wire && t.reader.arrived == s.reader.arrived
  {
    var s := Run(Init(Server, bufferSize), es);
    InvInit(Server, bufferSize);
    InvRun(Init(Server, bufferSize), es);
    KindIsKept(Init(Server, bufferSize), es);
    InvStep(s, e);
    ClosedMovesNothing(Step(s, e), more);
  }

  // ---------------------------------------------------------------------------
  // The read loop goes on
  // ---------------------------------------------------------------------------

  predicate NoReadFails(es: seq<Event>) {
    forall e :: e in es ==> !e.ReadFail?
  }

  /** How many reads are out or have their chunk consumed right now. */
  function Reading(r: Reader): nat {
    |r.ops| + if r.consuming then 1 else 0
  }

  lemma ReadingStep(s: State, e: Event)
    requires Inv(s) && Enabled(s, e) && !e.ReadFail? && (s.kind == Server || s.writer.open) && Reading(s.reader) == 1
    ensures Reading(Step(s, e).reader) == 1
  {
    ReaderStep(s, e);
  }

  lemma OpenBefore(s: State, e: Event)
    requires Inv(s) && Enabled(s, e) && Step(s, e).writer.open
    ensures s.writer.open
  {
    if !s.writer.open {
      ClosedMoves(s, e);
    }
  }

  lemma {:induction false} ReadingRun(s: State, es: seq<Event>)
    requires Inv(s) && Legal(s, es) && NoReadFails(es)
    requires s.kind == Server || s.writer.open ==> Reading(s.reader) == 1
    ensures s.kind == Server || Run(s, es).writer.open ==> Reading(Run(s, es).reader) == 1
    decreases |es|
  {
    if es != [] {
      assert es[0] in es && forall e :: e in es[1..] ==> e in es;
      InvStep(s, es[0]);
      if Step(s, es[0]).writer.open {
        OpenBefore(s, es[0]);
      }
      if s.kind == Server || s.writer.open {
        ReadingStep(s, es[0]);
      }
      ReadingRun(Step(s, es[0]), es[1..]);
    }
  }

  /**
   * As long as no read has failed, a server connection has exactly one read
   * outstanding, or the chunk of one is being consumed, even if the socket has been
   * closed by then; and so has a client connection whose socket is open.
   */
  lemma KeepsReading(kind: Kind, bufferSize: nat, es: seq<Event>)
    requires Legal(Init(kind, bufferSize), es) && NoReadFails(es)
    ensures var s := Run(Init(kind, bufferSize), es);
            kind == Server || s.writer.open ==> |s.reader.ops| + (if s.reader.consuming then 1 else 0) == 1
  {
    InvInit(kind, bufferSize);
    ReadingRun(Init(kind, bufferSize), es);
  }

  /** So a server connection whose reads have not failed is never released. */
  lemma ReadingServerStaysAlive(bufferSize: nat, es: seq<Event>)
    requires Legal(Init(Server, bufferSize), es) && NoReadFails(es)
    ensures Alive(Run(Init(Server, bufferSize), es))
  {
    KeepsReading(Server, bufferSize, es);
    ReleasedWhenNothingIsDue(bufferSize, es);
  }
}
