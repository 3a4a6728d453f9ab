/** The plain queue of bytes with a pending close that the two-buffer writer implements. */
module Fifo {
  import opened Octets

  datatype Queue = Queue(waiting: Bytes, wire: Bytes, closing: bool, closed: bool)

  datatype Move =
    | Push(data: Bytes)   // bytes are accepted
    | Pop(n: nat)         // n bytes reach the wire, oldest first
    | AskClose            // the close is requested
    | Shut                // the close happens: only when requested and nothing waits

  predicate Allowed(q: Queue, m: Move) {
    match m
    case Push(_) => true
    case Pop(n) => !q.closed && n <= |q.waiting|
    case AskClose => true
    case Shut => q.closing && q.waiting == []
  }

  function Apply(q: Queue, m: Move): Queue
    requires Allowed(q, m)
  {
    match m
    case Push(data) => q.(waiting := q.waiting + data)
    case Pop(n) => q.(wire := q.wire + q.waiting[..n], waiting := q.waiting[n..])
    case AskClose => q.(closing := true)
    case Shut => q.(closing := false, closed := true)
  }

  predicate AllAllowed(q: Queue, ms: seq<Move>)
    decreases |ms|
  {
    ms == [] || (Allowed(q, ms[0]) && AllAllowed(Apply(q, ms[0]), ms[1..]))
  }

  function ApplyAll(q: Queue, ms: seq<Move>): Queue
    requires AllAllowed(q, ms)
    decreases |ms|
  {
    if ms == [] then q else ApplyAll(Apply(q, ms[0]), ms[1..])
  }

  lemma {:induction false} Concat(q: Queue, a: seq<Move>, b: seq<Move>)
    requires AllAllowed(q, a) && AllAllowed(ApplyAll(q, a), b)
    ensures AllAllowed(q, a + b) && ApplyAll(q, a + b) == ApplyAll(ApplyAll(q, a), b)
    decreases |a|
  {
    if a == [] {
      assert a + b == b;
    } else {
      Concat(Apply(q, a[0]), a[1..], b);
      assert (a + b)[1..] == a[1..] + b;
    }
  }
}

/** The two-buffer writer refines the queue, step by step, in every run without an I/O error. */
module FifoRefinement {
  import opened Octets
  import opened Engine
  import opened EngineInvariant
  import opened Fifo

  function Abs(w: Writer): Queue {
    Queue(InFlight(w) + w.nextWriteBuffer, w.wire, w.disconnectRequested, !w.open)
  }

  /** A write fails, or a read fails in a way that closes the socket at once. */
  predicate IsError(kind: Kind, e: Event) {
    e.WriteFail? || (e.ReadFail? && kind == Server && !e.aborted)
  }

  predicate ErrorFree(kind: Kind, es: seq<Event>) {
    forall e :: e in es ==> !IsError(kind, e)
  }

  /** The queue moves that one step of the engine amounts to. */
  function Moves(s: State, e: Event): seq<Move>
    requires Enabled(s, e)
  {
    match e
    case Send(data) => [Push(data)]
    case AskDisconnect => if s.writer.bytesToWrite > 0 then [AskClose] else [AskClose, Shut]
    case Progress(_, n) => [Pop(n)]
    case WriteDone(_) => if s.writer.disconnectRequested && !Step(s, e).writer.disconnectRequested then [Shut] else []
    case _ => []
  }

  function AllMoves(s: State, es: seq<Event>): seq<Move>
    requires Legal(s, es)
    decreases |es|
  {
    if es == [] then [] else Moves(s, es[0]) + AllMoves(Step(s, es[0]), es[1..])
  }

  lemma RefineSend(w: Writer, data: Bytes)
    requires Control(w) && |w.nextWriteBuffer| + |data| < SIZE_MODULUS
    ensures Abs(SendData(w, data)) == Apply(Abs(w), Push(data))
  {
    ControlSend(w, data);
    if w.bytesToWrite != 0 {
      assert InFlight(w) + (w.nextWriteBuffer + data) == InFlight(w) + w.nextWriteBuffer + data;
    }
  }

  lemma RefineDisconnect(w: Writer)
    requires Control(w)
    ensures var asked := Apply(Abs(w), AskClose);
            if w.bytesToWrite > 0 then Abs(Disconnect(w)) == asked
            else Allowed(asked, Shut) && Abs(Disconnect(w)) == Apply(asked, Shut)
  {
    assert InFlight(Disconnect(w)) == InFlight(w);
  }

  lemma RefineProgress(w: Writer, i: nat, n: nat)
    requires Control(w) && w.open && i in w.ops && 0 < n && w.ops[i].sent + n <= w.ops[i].len
    ensures Allowed(Abs(w), Pop(n)) && Abs(Transfer(w, i, n)) == Apply(Abs(w), Pop(n))
  {
    ControlTransfer(w, i, n);
    var q := Abs(w);
    assert q.waiting[..n] == InFlight(w)[..n];
    assert q.waiting[n..] == InFlight(w)[n..] + w.nextWriteBuffer;
  }

  lemma RefineWritten(w: Writer, i: nat)
    requires Control(w) && i in w.ops && w.ops[i].sent == w.ops[i].len
    ensures var t, q := HandleWritten(w, i), Abs(w);
            if w.disconnectRequested && !t.disconnectRequested
            then Allowed(q, Shut) && Apply(q, Shut) == Abs(t) else q == Abs(t)
  {
    if w.ops[i].len == 0 {
      EmptyWritten(w, i);
    } else {
      LiveWritten(w, i);
      ControlWritten(w, i);
    }
  }

  lemma ApplyOne(q: Queue, m: Move)
    requires Allowed(q, m)
    ensures AllAllowed(q, [m]) && ApplyAll(q, [m]) == Apply(q, m)
  {
  }

  /** One step of the engine is zero, one or two moves of the queue, each of them allowed. */
  lemma RefineStep(s: State, e: Event)
    requires Control(s.writer) && Enabled(s, e) && !IsError(s.kind, e)
    ensures AllAllowed(Abs(s.writer), Moves(s, e))
    ensures ApplyAll(Abs(s.writer), Moves(s, e)) == Abs(Step(s, e).writer)
  {
    var w, q := s.writer, Abs(s.writer);
    match e {
      case Send(data) =>
        RefineSend(w, data);
        ApplyOne(q, Push(data));
      case AskDisconnect =>
        RefineDisconnect(w);
        ApplyOne(q, AskClose);
        if w.bytesToWrite == 0 {
          ApplyOne(Apply(q, AskClose), Shut);
          Concat(q, [AskClose], [Shut]);
          assert [AskClose] + [Shut] == [AskClose, Shut];
        }
      case Progress(i, n) =>
        RefineProgress(w, i, n);
        ApplyOne(q, Pop(n));
      case WriteDone(i) =>
        RefineWritten(w, i);
      case _ =>
    }
  }

  /** Every run without an I/O error is a run of the queue that ends in the matching state. */
  lemma {:induction false} RefineRun(s: State, es: seq<Event>)
    requires Inv(s) && Legal(s, es) && ErrorFree(s.kind, es)
    ensures AllAllowed(Abs(s.writer), AllMoves(s, es))
    ensures ApplyAll(Abs(s.writer), AllMoves(s, es)) == Abs(Run(s, es).writer)
    decreases |es|
  {
    if es != [] {
      var t := Step(s, es[0]);
      InvStep(s, es[0]);
      RefineStep(s, es[0]);
      RefineRun(t, es[1..]);
      Concat(Abs(s.writer), Moves(s, es[0]), AllMoves(t, es[1..]));
    }
  }

  /** The two-buffer writer behaves as the queue, from an empty one, whatever the kind of connection. */
  lemma WriterRefinesQueue(kind: Kind, bufferSize: nat, es: seq<Event>)
    requires Legal(Init(kind, bufferSize), es) && ErrorFree(kind, es)
    ensures var start, ms := Queue([], [], false, false), AllMoves(Init(kind, bufferSize), es);
            AllAllowed(start, ms) && ApplyAll(start, ms) == Abs(Run(Init(kind, bufferSize), es).writer)
  {
    InvInit(kind, bufferSize);
    RefineRun(Init(kind, bufferSize), es);
  }
}
