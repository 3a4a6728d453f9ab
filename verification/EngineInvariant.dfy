/** The invariant of the connection engine, kept by every step of both kinds of connection. */
module EngineInvariant {
  import opened Octets
  import opened Engine

  /** The most recently started write; only this one can carry bytes. */
  function Last(w: Writer): nat
    requires w.started != []
  {
    |w.started| - 1
  }

  /** A non-empty write is outstanding. */
  predicate Live(w: Writer) {
    w.started != [] && Last(w) in w.ops && w.ops[Last(w)].len > 0
  }

  /**
   * What was started but is not on the wire: the part of the write buffer that
   * the live write has not handed over yet or, after a failure, never will.
   */
  function InFlight(w: Writer): Bytes {
    if Live(w) && w.ops[Last(w)].sent <= |w.writeBuffer| then w.writeBuffer[w.ops[Last(w)].sent..] else w.lost
  }

  /** Only the last started write can carry bytes, and its buffer is still the one it was given. */
  predicate SingleWriter(w: Writer) {
    && (forall i :: i in w.ops ==> i < |w.started| && w.ops[i].sent <= w.ops[i].len == |w.started[i]|)
    && (forall i :: i in w.ops && w.ops[i].len > 0 ==> i == Last(w))
    && (Live(w) ==> w.writeBuffer == w.started[Last(w)] && w.bytesToWrite == |w.writeBuffer|)
  }

  /** `bytesToWrite_` says whether a non-empty write is out, or was when it failed. */
  predicate CounterOk(w: Writer) {
    && |w.nextWriteBuffer| < SIZE_MODULUS && |w.writeBuffer| < SIZE_MODULUS
    && (w.bytesToWrite > 0 <==> Live(w) || Failed(w))
    && (Failed(w) ==> !Live(w))
    && (w.bytesToWrite == 0 ==> w.nextWriteBuffer == [])
    && (w.disconnectRequested ==> w.bytesToWrite > 0)
  }

  /** Every accepted byte is in exactly one started write or in the next buffer, in order. */
  predicate StreamOk(w: Writer) {
    && w.accepted == Flatten(w.started) + w.nextWriteBuffer
    && w.wire + InFlight(w) == Flatten(w.started)
  }

  predicate Control(w: Writer) {
    SingleWriter(w) && CounterOk(w) && w.owners == |w.ops|
  }

  predicate WriterInv(w: Writer) {
    Control(w) && StreamOk(w)
  }

  /** At most one read is out, never while a chunk is consumed; chunks are delivered in order. */
  predicate ReaderInv(r: Reader) {
    && |r.ops| + (if r.consuming then 1 else 0) <= 1
    && (r.ops != [] && r.ops[0].Arrived? ==>
          r.ops[0].count <= |r.buffer| && r.arrived == r.delivered + r.buffer[..r.ops[0].count])
    && (r.ops == [] || r.ops[0].Waiting? ==> r.arrived == r.delivered)
    && r.owners == |r.ops| + if r.consuming then 1 else 0
  }

  predicate Inv(s: State) {
    WriterInv(s.writer) && ReaderInv(s.reader)
  }

  lemma InvInit(kind: Kind, bufferSize: nat)
    ensures Inv(Init(kind, bufferSize))
  {
  }

  lemma RemoveOne(m: map<nat, WriteOp>, i: nat)
    requires i in m
    ensures |m - {i}| == |m| - 1
  {
    assert (m - {i}).Keys == m.Keys - {i};
  }

  // ---------------------------------------------------------------------------
  // Each step keeps the invariant
  // ---------------------------------------------------------------------------

  /** No write is live and nothing is counted: `sendData` may start one. */
  predicate Idle(w: Writer) {
    && SingleWriter(w) && !Live(w) && !Failed(w) && w.bytesToWrite == 0 && w.nextWriteBuffer == []
    && |w.writeBuffer| < SIZE_MODULUS
    && (w.disconnectRequested ==> w.writeBuffer != [])
  }

  lemma ControlStart(w: Writer)
    requires Idle(w) && w.owners == |w.ops|
    ensures Control(StartWrite(w)) && InFlight(StartWrite(w)) == w.writeBuffer
  {
    assert |w.started| !in w.ops;
  }

  lemma StreamStart(w: Writer)
    requires w.nextWriteBuffer == [] && w.wire == Flatten(w.started) && w.accepted == Flatten(w.started) + w.writeBuffer
    requires InFlight(StartWrite(w)) == w.writeBuffer
    ensures StreamOk(StartWrite(w))
  {
    FlattenSnoc(w.started, w.writeBuffer);
    assert w.accepted + [] == w.accepted;
  }

  lemma ControlSend(w: Writer, data: Bytes)
    requires Control(w) && |w.nextWriteBuffer| + |data| < SIZE_MODULUS
    ensures Control(SendData(w, data))
    ensures InFlight(SendData(w, data)) == if w.bytesToWrite != 0 then InFlight(w) else data
  {
    if w.bytesToWrite == 0 {
      ControlStart(w.(accepted := w.accepted + data, writeBuffer := data));
    }
  }

  lemma StreamSend(w: Writer, data: Bytes)
    requires StreamOk(w) && (w.bytesToWrite == 0 ==> InFlight(w) == [] && w.nextWriteBuffer == [])
    requires InFlight(SendData(w, data)) == if w.bytesToWrite != 0 then InFlight(w) else data
    ensures StreamOk(SendData(w, data))
  {
    var t := SendData(w, data);
    if w.bytesToWrite != 0 {
      assert t.accepted == Flatten(w.started) + (w.nextWriteBuffer + data);
    } else {
      FlattenSnoc(w.started, data);
      assert w.accepted + data == Flatten(w.started + [data]) + [];
      assert w.wire == Flatten(w.started);
    }
  }

  lemma WriterSend(w: Writer, data: Bytes)
    requires WriterInv(w) && |w.nextWriteBuffer| + |data| < SIZE_MODULUS
    ensures WriterInv(SendData(w, data))
  {
    ControlSend(w, data);
    StreamSend(w, data);
  }

  lemma WriterDisconnect(w: Writer)
    requires WriterInv(w)
    ensures WriterInv(Disconnect(w)) && WriterInv(Close(w))
  {
    assert InFlight(Close(w)) == InFlight(w) == InFlight(Disconnect(w));
  }

  /** Whatever is handed over comes from the live write, oldest bytes first. */
  lemma ControlTransfer(w: Writer, i: nat, n: nat)
    requires Control(w) && i in w.ops && 0 < n && w.ops[i].sent + n <= w.ops[i].len
    ensures Control(Transfer(w, i, n)) && Live(Transfer(w, i, n))
    ensures Live(w) && i == Last(w) && n <= |InFlight(w)|
    ensures Transfer(w, i, n).wire == w.wire + InFlight(w)[..n]
    ensures InFlight(Transfer(w, i, n)) == InFlight(w)[n..]
  {
    assert Transfer(w, i, n).ops.Keys == w.ops.Keys;
  }

  lemma WriterTransfer(w: Writer, i: nat, n: nat)
    requires WriterInv(w) && i in w.ops && 0 < n && w.ops[i].sent + n <= w.ops[i].len
    ensures WriterInv(Transfer(w, i, n))
  {
    ControlTransfer(w, i, n);
    assert (w.wire + InFlight(w)[..n]) + InFlight(w)[n..] == w.wire + InFlight(w);
  }

  /** The subtraction in `onBytesWritten` never underflows: it empties the counter or subtracts zero. */
  lemma NoUnderflow(w: Writer, i: nat)
    requires Control(w) && i in w.ops
    ensures w.ops[i].len <= w.bytesToWrite
    ensures SizeSub(w.bytesToWrite, w.ops[i].len) == w.bytesToWrite - w.ops[i].len
    ensures w.ops[i].len == 0 || w.ops[i].len == w.bytesToWrite
  {
  }

  /** The end of a zero-length write changes nothing but the set of outstanding writes. */
  lemma EmptyWritten(w: Writer, i: nat)
    requires Control(w) && i in w.ops && w.ops[i].len == 0
    ensures HandleWritten(w, i) == w.(ops := w.ops - {i}, owners := w.owners - 1)
    ensures Control(HandleWritten(w, i)) && InFlight(HandleWritten(w, i)) == InFlight(w)
  {
    RemoveOne(w.ops, i);
    var t := w.(ops := w.ops - {i}, owners := w.owners - 1);
    assert Live(t) == Live(w);
  }

  /** The state in which the end of the live write starts the next one. */
  function Flushing(w: Writer, i: nat): Writer
    requires w.owners > 0
  {
    w.(ops := w.ops - {i}, bytesToWrite := 0, writeBuffer := w.nextWriteBuffer, nextWriteBuffer := [],
        owners := w.owners - 1)
  }

  /** The end of the live write flushes the next buffer in one piece or carries out a pending close. */
  lemma LiveWritten(w: Writer, i: nat)
    requires Control(w) && i in w.ops && w.ops[i].len > 0 && w.ops[i].sent == w.ops[i].len
    ensures w.owners > 0
    ensures HandleWritten(w, i)
         == if w.nextWriteBuffer != [] then StartWrite(Flushing(w, i))
            else if w.disconnectRequested then Close(w.(ops := w.ops - {i}, bytesToWrite := 0, owners := w.owners - 1))
            else w.(ops := w.ops - {i}, bytesToWrite := 0, owners := w.owners - 1)
    ensures InFlight(w) == []
  {
    RemoveOne(w.ops, i);
    assert w.accepted + [] == w.accepted && w.nextWriteBuffer + [] == w.nextWriteBuffer;
  }

  lemma ControlWritten(w: Writer, i: nat)
    requires Control(w) && i in w.ops && w.ops[i].len > 0 && w.ops[i].sent == w.ops[i].len
    ensures Control(HandleWritten(w, i)) && w.owners > 0
    ensures w.nextWriteBuffer != [] ==> Idle(Flushing(w, i)) && InFlight(HandleWritten(w, i)) == w.nextWriteBuffer
    ensures w.nextWriteBuffer == [] ==> InFlight(HandleWritten(w, i)) == []
  {
    RemoveOne(w.ops, i);
    LiveWritten(w, i);
    if w.nextWriteBuffer != [] {
      ControlStart(Flushing(w, i));
    }
  }

  lemma WriterWritten(w: Writer, i: nat)
    requires WriterInv(w) && i in w.ops && w.ops[i].sent == w.ops[i].len
    ensures WriterInv(HandleWritten(w, i))
  {
    if w.ops[i].len == 0 {
      EmptyWritten(w, i);
    } else {
      LiveWritten(w, i);
      ControlWritten(w, i);
      if w.nextWriteBuffer != [] {
        StreamStart(Flushing(w, i));
      }
    }
  }

  lemma EmptyError(kind: Kind, w: Writer, i: nat)
    requires Control(w) && i in w.ops && w.ops[i].sent == w.ops[i].len == 0
    ensures var t := HandleWriteError(kind, w, i);
            Control(t) && t.lost == w.lost && InFlight(t) == InFlight(w)
  {
    RemoveOne(w.ops, i);
    var t := HandleWriteError(kind, w, i);
    assert t.lost == w.lost;
    assert Live(t) == Live(w);
  }

  /** A failed write leaves the counter up, and what it did not hand over is lost. */
  lemma LiveError(kind: Kind, w: Writer, i: nat)
    requires Control(w) && i in w.ops && w.ops[i].sent < w.ops[i].len
    ensures var t := HandleWriteError(kind, w, i);
            Control(t) && Failed(t) && InFlight(t) == InFlight(w)
  {
    RemoveOne(w.ops, i);
    var t := HandleWriteError(kind, w, i);
    assert t.lost == w.writeBuffer[w.ops[i].sent..];
  }

  lemma ControlError(kind: Kind, w: Writer, i: nat)
    requires Control(w) && i in w.ops && (w.ops[i].sent < w.ops[i].len || w.ops[i].sent == w.ops[i].len == 0)
    ensures var t := HandleWriteError(kind, w, i);
            && Control(t) && InFlight(t) == InFlight(w) && t.bytesToWrite == w.bytesToWrite
            && (Failed(t) <==> Failed(w) || w.ops[i].len > 0)
  {
    if w.ops[i].len == 0 {
      EmptyError(kind, w, i);
    } else {
      LiveError(kind, w, i);
    }
  }

  lemma WriterError(kind: Kind, w: Writer, i: nat)
    requires WriterInv(w) && i in w.ops && (w.ops[i].sent < w.ops[i].len || w.ops[i].sent == w.ops[i].len == 0)
    ensures WriterInv(HandleWriteError(kind, w, i))
  {
    ControlError(kind, w, i);
  }

  lemma ReaderStep(s: State, e: Event)
    requires ReaderInv(s.reader) && Enabled(s, e)
    ensures ReaderInv(Step(s, e).reader)
  {
    var r, t := s.reader, Step(s, e).reader;
    match e {
      case Arrive(i, chunk) => assert t.buffer[..|chunk|] == chunk;
      case _ =>
    }
  }

  lemma InvStep(s: State, e: Event)
    requires Inv(s) && Enabled(s, e)
    ensures Inv(Step(s, e))
  {
    ReaderStep(s, e);
    var w := s.writer;
    match e {
      case Send(data) => WriterSend(w, data);
      case AskDisconnect => WriterDisconnect(w);
      case Progress(i, n) => WriterTransfer(w, i, n);
      case WriteDone(i) => WriterWritten(w, i);
      case WriteFail(i) => WriterError(s.kind, w, i);
      case ReadFail(_, _) => WriterDisconnect(w);
      case _ =>
    }
  }

  lemma {:induction false} InvRun(s: State, es: seq<Event>)
    requires Inv(s) && Legal(s, es)
    ensures Inv(Run(s, es))
    decreases |es|
  {
    if es != [] {
      InvStep(s, es[0]);
      InvRun(Step(s, es[0]), es[1..]);
    }
  }
}
