/** What holds of the connection engine over every run, for both kinds of connection. */
module EngineRuns {
  import opened Octets
  import opened Engine
  import opened EngineInvariant

  // ---------------------------------------------------------------------------
  // The byte stream
  // ---------------------------------------------------------------------------

  /** What one event passes to `sendData`. */
  function Data(e: Event): Bytes {
    if e.Send? then e.data else []
  }

  lemma AcceptedStep(s: State, e: Event)
    requires Enabled(s, e)
    ensures Step(s, e).writer.accepted == s.writer.accepted + Data(e)
  {
    assert s.writer.accepted + [] == s.writer.accepted;
  }

  lemma {:induction false} AcceptedGrows(s: State, es: seq<Event>)
    requires Legal(s, es)
    ensures Run(s, es).writer.accepted == s.writer.accepted + SentBytes(es)
    decreases |es|
  {
    if es != [] {
      AcceptedStep(s, es[0]);
      AcceptedGrows(Step(s, es[0]), es[1..]);
    }
  }

  /**
   * In every reachable state the wire, what is in flight (or was lost by the
   * write that failed) and the next buffer make up exactly what was sent. So the
   * wire always carries a prefix of it, and all of it once no write is
   * outstanding, unless a non-empty write has failed.
   */
  lemma StreamPreservation(kind: Kind, bufferSize: nat, es: seq<Event>)
    requires Legal(Init(kind, bufferSize), es)
    ensures var w := Run(Init(kind, bufferSize), es).writer;
            && w.wire + InFlight(w) + w.nextWriteBuffer == SentBytes(es)
            && w.wire <= SentBytes(es)
            && (w.ops == map[] && !Failed(w) ==> w.wire == SentBytes(es))
  {
    var s := Init(kind, bufferSize);
    InvInit(kind, bufferSize);
    InvRun(s, es);
    AcceptedGrows(s, es);
    var w := Run(s, es).writer;
    assert w.accepted == SentBytes(es);
  }

  lemma WireStep(s: State, e: Event)
    requires Enabled(s, e)
    ensures s.writer.wire <= Step(s, e).writer.wire
  {
  }

  /** What is on the wire is never taken back. */
  lemma {:induction false} WireOnlyGrows(s: State, es: seq<Event>)
    requires Legal(s, es)
    ensures s.writer.wire <= Run(s, es).writer.wire
    decreases |es|
  {
    if es != [] {
      WireStep(s, es[0]);
      WireOnlyGrows(Step(s, es[0]), es[1..]);
    }
  }

  lemma FailedStep(s: State, e: Event)
    requires Control(s.writer) && Enabled(s, e) && Failed(s.writer)
    ensures var w := Step(s, e).writer;
            Control(w) && Failed(w) && w.wire == s.writer.wire && w.started == s.writer.started
  {
    match e {
      case Send(data) => ControlSend(s.writer, data);
      case Progress(i, n) => ControlTransfer(s.writer, i, n);
      case WriteDone(i) => EmptyWritten(s.writer, i);
      case WriteFail(i) => ControlError(s.kind, s.writer, i);
      case _ =>
    }
  }

  /**
   * Once a non-empty write has failed, no byte reaches the wire and no write is
   * started any more, whatever follows.
   */
  lemma {:induction false} FailStop(s: State, es: seq<Event>)
    requires Control(s.writer) && Legal(s, es) && Failed(s.writer)
    ensures var w := Run(s, es).writer;
            Failed(w) && w.wire == s.writer.wire && w.started == s.writer.started
    decreases |es|
  {
    if es != [] {
      FailedStep(s, es[0]);
      FailStop(Step(s, es[0]), es[1..]);
    }
  }

  /** The failure that stops the stream is exactly the error handler of a write with bytes. */
  lemma FailureBegins(s: State, e: Event)
    requires Inv(s) && Enabled(s, e) && !Failed(s.writer)
    ensures Failed(Step(s, e).writer) <==> e.WriteFail? && s.writer.ops[e.i].len > 0
  {
    if e.WriteFail? {
      ControlError(s.kind, s.writer, e.i);
    }
  }

  // ---------------------------------------------------------------------------
  // Single writer
  // ---------------------------------------------------------------------------

  /**
   * In every reachable state at most one outstanding write carries bytes, and
   * whatever it hands over next is what it was asked to send, although it only
   * points to `writeBuffer_` and zero-length writes may overlap it. The next
   * buffer is used only while bytes are counted, and no completion can make the
   * counter wrap around.
   */
  lemma SingleWriterInEveryRun(kind: Kind, bufferSize: nat, es: seq<Event>)
    requires Legal(Init(kind, bufferSize), es)
    ensures var s := Run(Init(kind, bufferSize), es);
            var w := s.writer;
            && (forall i, j :: i in w.ops && j in w.ops && w.ops[i].len > 0 && w.ops[j].len > 0 ==> i == j)
            && (forall i: nat, n: nat :: Enabled(s, Progress(i, n)) ==>
                  i < |w.started| && w.ops[i].sent + n <= |w.started[i]| &&
                  View(w, w.ops[i], n) == w.started[i][w.ops[i].sent..w.ops[i].sent + n])
            && (w.nextWriteBuffer != [] ==> w.bytesToWrite > 0)
            && (forall i: nat :: Enabled(s, WriteDone(i)) ==>
                  SizeSub(w.bytesToWrite, w.ops[i].len) == w.bytesToWrite - w.ops[i].len)
  {
    var s := Run(Init(kind, bufferSize), es);
    var w := s.writer;
    InvInit(kind, bufferSize);
    InvRun(Init(kind, bufferSize), es);
    forall i: nat | Enabled(s, WriteDone(i))
      ensures SizeSub(w.bytesToWrite, w.ops[i].len) == w.bytesToWrite - w.ops[i].len
    {
      NoUnderflow(w, i);
    }
  }

  // ---------------------------------------------------------------------------
  // Coalescing
  // ---------------------------------------------------------------------------

  /** Writes started, counting the one that a non-empty next buffer is still going to need. */
  function WritesOwed(w: Writer): nat {
    |w.started| + if w.nextWriteBuffer != [] then 1 else 0
  }

  lemma WritesOwedWritten(w: Writer, i: nat)
    requires Control(w) && i in w.ops && w.ops[i].sent == w.ops[i].len
    ensures WritesOwed(HandleWritten(w, i)) <= WritesOwed(w)
  {
    if w.ops[i].len == 0 {
      EmptyWritten(w, i);
    } else {
      LiveWritten(w, i);
    }
  }

  lemma WritesOwedStep(s: State, e: Event)
    requires Control(s.writer) && Enabled(s, e)
    ensures WritesOwed(Step(s, e).writer) <= WritesOwed(s.writer) + if e.Send? then 1 else 0
  {
    if e.WriteDone? {
      WritesOwedWritten(s.writer, e.i);
    }
  }

  lemma {:induction false} WritesOwedBounded(s: State, es: seq<Event>)
    requires Inv(s) && Legal(s, es)
    ensures WritesOwed(Run(s, es).writer) <= WritesOwed(s.writer) + SendCalls(es)
    decreases |es|
  {
    if es != [] {
      WritesOwedStep(s, es[0]);
      InvStep(s, es[0]);
      WritesOwedBounded(Step(s, es[0]), es[1..]);
    }
  }

  /** There are never more writes than calls of `sendData`. */
  lemma NoMoreWritesThanSends(kind: Kind, bufferSize: nat, es: seq<Event>)
    requires Legal(Init(kind, bufferSize), es)
    ensures |Run(Init(kind, bufferSize), es).writer.started| <= SendCalls(es)
  {
    InvInit(kind, bufferSize);
    WritesOwedBounded(Init(kind, bufferSize), es);
  }

  /** No event of the run is the end of write `i`. */
  predicate StaysOut(es: seq<Event>, i: nat) {
    es == [] || (es[0] != WriteDone(i) && es[0] != WriteFail(i) && StaysOut(es[1..], i))
  }

  lemma GatherTransfer(w: Writer, i: nat, n: nat)
    requires Control(w) && Live(w) && w.open && i in w.ops && 0 < n && w.ops[i].sent + n <= w.ops[i].len
    ensures Control(Transfer(w, i, n)) && Live(Transfer(w, i, n))
  {
    ControlTransfer(w, i, n);
  }

  lemma GatherError(kind: Kind, w: Writer, i: nat)
    requires Control(w) && Live(w) && i in w.ops && i != Last(w) && w.ops[i].sent == w.ops[i].len == 0
    ensures var t := HandleWriteError(kind, w, i);
            Control(t) && Live(t) && t.started == w.started
  {
    ControlError(kind, w, i);
  }

  lemma GatherStep(s: State, e: Event)
    requires Control(s.writer) && Enabled(s, e) && Live(s.writer)
    requires e != WriteDone(Last(s.writer)) && e != WriteFail(Last(s.writer))
    ensures var w := Step(s, e).writer;
            Control(w) && Live(w) && w.started == s.writer.started
  {
    match e {
      case Send(data) => ControlSend(s.writer, data);
      case Progress(i, n) => GatherTransfer(s.writer, i, n);
      case WriteDone(i) => EmptyWritten(s.writer, i);
      case WriteFail(i) => GatherError(s.kind, s.writer, i);
      case _ =>
    }
  }

  /** While a live write is out, none is started and it stays the live one. */
  lemma {:induction false} NoneStarted(s: State, es: seq<Event>)
    requires Control(s.writer) && Legal(s, es) && Live(s.writer) && StaysOut(es, Last(s.writer))
    ensures var w := Run(s, es).writer;
            w.started == s.writer.started && Live(w)
    decreases |es|
  {
    if es != [] {
      GatherStep(s, es[0]);
      NoneStarted(Step(s, es[0]), es[1..]);
    }
  }

  /** While a live write is out, sends only gather in the next buffer. */
  lemma SendsGather(s: State, es: seq<Event>)
    requires Inv(s) && Legal(s, es) && Live(s.writer) && StaysOut(es, Last(s.writer))
    ensures var w := Run(s, es).writer;
            && w.started == s.writer.started && Live(w)
            && w.nextWriteBuffer == s.writer.nextWriteBuffer + SentBytes(es)
  {
    NoneStarted(s, es);
    InvRun(s, es);
    AcceptedGrows(s, es);
    var w := Run(s, es).writer;
    Cancel(Flatten(w.started), w.nextWriteBuffer, s.writer.nextWriteBuffer, SentBytes(es));
  }

  /** Everything sent during one live write leaves in exactly one write, started when it completes. */
  lemma SendsLeaveTogether(s: State, es: seq<Event>)
    requires Inv(s) && Legal(s, es) && Live(s.writer) && StaysOut(es, Last(s.writer))
    requires s.writer.nextWriteBuffer == []
    requires Enabled(Run(s, es), WriteDone(Last(s.writer)))
    ensures Step(Run(s, es), WriteDone(Last(s.writer))).writer.started
         == s.writer.started + if SentBytes(es) == [] then [] else [SentBytes(es)]
  {
    var w := Run(s, es).writer;
    SendsGather(s, es);
    InvRun(s, es);
    assert w.nextWriteBuffer == SentBytes(es);
    LiveWritten(w, Last(s.writer));
    assert w.started + [] == w.started;
  }

  // ---------------------------------------------------------------------------
  // Reading
  // ---------------------------------------------------------------------------

  lemma {:induction false} ArrivedGrows(s: State, es: seq<Event>)
    requires Legal(s, es)
    ensures Run(s, es).reader.arrived == s.reader.arrived + ArrivedBytes(es)
    decreases |es|
  {
    if es != [] {
      ArrivedGrows(Step(s, es[0]), es[1..]);
    }
  }

  /**
   * The library is given exactly the bytes read, in order; at most one read is
   * out; and while a chunk is consumed none is, so no step changes the buffer.
   */
  lemma ReadLoop(kind: Kind, bufferSize: nat, es: seq<Event>)
    requires Legal(Init(kind, bufferSize), es)
    ensures var s := Run(Init(kind, bufferSize), es);
            var r := s.reader;
            && |r.ops| <= 1
            && r.delivered <= ArrivedBytes(es)
            && (r.ops == [] || r.ops[0].Waiting? ==> r.delivered == ArrivedBytes(es))
            && (r.consuming ==> r.ops == [] && r.delivered == ArrivedBytes(es))
            && (r.consuming ==> forall e :: Enabled(s, e) ==> Step(s, e).reader.buffer == r.buffer)
  {
    InvInit(kind, bufferSize);
    InvRun(Init(kind, bufferSize), es);
    ArrivedGrows(Init(kind, bufferSize), es);
    var r := Run(Init(kind, bufferSize), es).reader;
    assert r.arrived == ArrivedBytes(es);
  }
}
