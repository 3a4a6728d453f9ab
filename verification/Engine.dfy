/**
 * The buffered connection engine shared by `Connection` and `ClientConnection`:
 * what each member function does to the fields, and the steps that asio and the
 * FastCGI library may take between two handlers.
 *
 * Assumed of asio: handlers of one connection run one at a time; `async_write`
 * hands over bytes of the buffer it was given in order, in pieces of any size,
 * and completes with success only when all are handed over; an operation on a
 * closed socket moves no bytes. A write is given a view of `writeBuffer_`, not
 * a copy, so every piece is read from the buffer as it is at that moment.
 */
module Engine {
  import opened Octets

  /** `Connection` serves requests, `ClientConnection` makes them. */
  datatype Kind = Server | Client

  /** An outstanding `async_write`: the length of its view, and how much of it was handed over. */
  datatype WriteOp = WriteOp(len: nat, sent: nat)

  /** An outstanding `async_read_some`; `Arrived` has data and waits for its handler. */
  datatype ReadOp = Waiting | Arrived(count: nat)

  /** The socket and the fields that `sendData`, `onBytesWritten`, `disconnect` and `close` use. */
  datatype Writer = Writer(
    writeBuffer: Bytes,
    nextWriteBuffer: Bytes,
    bytesToWrite: nat,
    disconnectRequested: bool,
    open: bool,
    ops: map<nat, WriteOp>,   // outstanding writes, by their position in `started`
    owners: nat,              // copies of `self` held by write handlers
    // history
    wire: Bytes,              // bytes handed to the peer
    accepted: Bytes,          // bytes ever passed to sendData
    started: seq<Bytes>,      // the buffer of every async_write, in order
    lost: Bytes)              // bytes that failed writes did not hand over

  /** The read buffer and what `process` and `readData` use. */
  datatype Reader = Reader(
    buffer: Bytes,
    ops: seq<ReadOp>,         // outstanding reads
    consuming: bool,          // inside receiveData, called from a read handler
    owners: nat,              // copies of `self` held by read handlers
    // history
    arrived: Bytes,           // bytes ever read from the socket
    delivered: Bytes,         // bytes ever passed to receiveData
    started: nat)             // how many reads were started

  datatype State = State(kind: Kind, writer: Writer, reader: Reader)

  // ---------------------------------------------------------------------------
  // Member functions
  // ---------------------------------------------------------------------------

  function StartWrite(w: Writer): Writer {
    w.(bytesToWrite := SizeAdd(w.bytesToWrite, |w.writeBuffer|),
       ops := w.ops[|w.started| := WriteOp(|w.writeBuffer|, 0)],
       owners := w.owners + 1,
       started := w.started + [w.writeBuffer])
  }

  function SendData(w: Writer, data: Bytes): Writer {
    var w := w.(accepted := w.accepted + data);
    if w.bytesToWrite != 0 then
      w.(nextWriteBuffer := w.nextWriteBuffer + data)
    else if w.nextWriteBuffer != [] then
      StartWrite(w.(writeBuffer := w.nextWriteBuffer + data, nextWriteBuffer := []))
    else
      StartWrite(w.(writeBuffer := data))
  }

  function Close(w: Writer): Writer {
    w.(open := false, disconnectRequested := false)
  }

  function OnBytesWritten(w: Writer, numOfBytes: nat): Writer {
    var w := w.(bytesToWrite := SizeSub(w.bytesToWrite, numOfBytes));
    if w.bytesToWrite != 0 then w
    else if w.nextWriteBuffer != [] then SendData(w, [])
    else if w.disconnectRequested then Close(w)
    else w
  }

  function Disconnect(w: Writer): Writer {
    var w := w.(disconnectRequested := true);
    if w.bytesToWrite > 0 then w else Close(w)
  }

  /** `process` / `processReading`: only the client looks whether the socket is open. */
  function StartRead(kind: Kind, open: bool, r: Reader): Reader {
    if kind == Client && !open then r
    else r.(ops := r.ops + [Waiting], owners := r.owners + 1, started := r.started + 1)
  }

  // ---------------------------------------------------------------------------
  // Handlers and asio's own progress
  // ---------------------------------------------------------------------------

  function ReleaseWriter(w: Writer): Writer {
    if w.owners > 0 then w.(owners := w.owners - 1) else w
  }

  function ReleaseReader(r: Reader): Reader {
    if r.owners > 0 then r.(owners := r.owners - 1) else r
  }

  /** A non-empty write has failed: some of its bytes were not handed over. */
  predicate Failed(w: Writer) {
    w.lost != []
  }

  /** What write `op` hands over: whatever the buffer it points to holds now. */
  function View(w: Writer, op: WriteOp, n: nat): (piece: Bytes)
    ensures |piece| == n
  {
    if op.sent + n <= |w.writeBuffer| then w.writeBuffer[op.sent..op.sent + n]
    else seq(n, _ => 0)
  }

  function Transfer(w: Writer, i: nat, n: nat): Writer
    requires i in w.ops
  {
    var op := w.ops[i];
    w.(wire := w.wire + View(w, op, n), ops := w.ops[i := op.(sent := op.sent + n)])
  }

  function HandleWritten(w: Writer, i: nat): Writer
    requires i in w.ops
  {
    ReleaseWriter(OnBytesWritten(w.(ops := w.ops - {i}), w.ops[i].len))
  }

  function HandleWriteError(kind: Kind, w: Writer, i: nat): Writer
    requires i in w.ops && w.ops[i].sent <= w.ops[i].len
  {
    var op := w.ops[i];
    var w := w.(ops := w.ops - {i}, lost := w.lost + View(w, op, op.len - op.sent));
    ReleaseWriter(if kind == Server then Close(w) else w)
  }

  function Without<T>(s: seq<T>, i: nat): seq<T>
    requires i < |s|
  {
    s[..i] + s[i + 1..]
  }

  function Fill(r: Reader, i: nat, chunk: Bytes): Reader
    requires i < |r.ops| && |chunk| <= |r.buffer|
  {
    r.(buffer := chunk + r.buffer[|chunk|..], ops := r.ops[i := Arrived(|chunk|)], arrived := r.arrived + chunk)
  }

  function BeginReceive(r: Reader, i: nat): Reader
    requires i < |r.ops| && r.ops[i].Arrived?
  {
    var n := r.ops[i].count;
    r.(ops := Without(r.ops, i), consuming := true,
       delivered := r.delivered + if n <= |r.buffer| then r.buffer[..n] else [])
  }

  function EndReceive(kind: Kind, open: bool, r: Reader): Reader {
    ReleaseReader(StartRead(kind, open, r.(consuming := false)))
  }

  // ---------------------------------------------------------------------------
  // Steps
  // ---------------------------------------------------------------------------

  datatype Event =
    | Send(data: Bytes)                 // the library calls sendData
    | AskDisconnect                     // the library calls disconnect
    | Progress(i: nat, n: nat)          // write i hands n more bytes to the peer
    | WriteDone(i: nat)                 // the handler of write i runs, without error
    | WriteFail(i: nat)                 // the handler of write i runs, with an error
    | Arrive(i: nat, chunk: Bytes)      // read i fills the buffer
    | ReceiveBegin(i: nat)              // the handler of read i enters receiveData
    | ReceiveEnd                        // receiveData returns and the read is re-armed
    | ReadFail(i: nat, aborted: bool)   // the handler of read i runs, with an error

  /** The library can reach the object: a server connection is kept alive by its handlers only. */
  predicate Alive(s: State) {
    s.kind == Server ==> s.writer.owners + s.reader.owners > 0
  }

  predicate Enabled(s: State, e: Event) {
    var w, r := s.writer, s.reader;
    match e
    // std::string cannot grow beyond the range of std::size_t.
    case Send(data) => Alive(s) && |w.nextWriteBuffer| + |data| < SIZE_MODULUS
    case AskDisconnect => Alive(s)
    case Progress(i, n) => w.open && i in w.ops && 0 < n && w.ops[i].sent + n <= w.ops[i].len
    case WriteDone(i) => !r.consuming && i in w.ops && w.ops[i].sent == w.ops[i].len
    case WriteFail(i) => !r.consuming && i in w.ops
        && (w.ops[i].sent < w.ops[i].len || w.ops[i].sent == w.ops[i].len == 0)
    case Arrive(i, chunk) => w.open && i < |r.ops| && r.ops[i].Waiting? && 0 < |chunk| <= |r.buffer|
    case ReceiveBegin(i) => !r.consuming && i < |r.ops| && r.ops[i].Arrived?
    case ReceiveEnd => r.consuming
    case ReadFail(i, _) => !r.consuming && i < |r.ops| && r.ops[i].Waiting?
  }

  function Step(s: State, e: Event): State
    requires Enabled(s, e)
  {
    var w, r := s.writer, s.reader;
    match e
    case Send(data) => s.(writer := SendData(w, data))
    case AskDisconnect => s.(writer := Disconnect(w))
    case Progress(i, n) => s.(writer := Transfer(w, i, n))
    case WriteDone(i) => s.(writer := HandleWritten(w, i))
    case WriteFail(i) => s.(writer := HandleWriteError(s.kind, w, i))
    case Arrive(i, chunk) => s.(reader := Fill(r, i, chunk))
    case ReceiveBegin(i) => s.(reader := BeginReceive(r, i))
    case ReceiveEnd => s.(reader := EndReceive(s.kind, w.open, r))
    case ReadFail(i, aborted) =>
      s.(writer := if s.kind == Server && !aborted then Close(w) else w,
         reader := ReleaseReader(r.(ops := Without(r.ops, i))))
  }

  /** A connected socket right after the first `process` / `processReading`. */
  function Init(kind: Kind, bufferSize: nat): State {
    State(kind,
          Writer([], [], 0, false, true, map[], 0, [], [], [], []),
          StartRead(kind, true, Reader(seq(bufferSize, _ => 0), [], false, 0, [], [], 0)))
  }

  // ---------------------------------------------------------------------------
  // Runs
  // ---------------------------------------------------------------------------

  predicate Legal(s: State, es: seq<Event>)
    decreases |es|
  {
    es == [] || (Enabled(s, es[0]) && Legal(Step(s, es[0]), es[1..]))
  }

  function Run(s: State, es: seq<Event>): State
    requires Legal(s, es)
    decreases |es|
  {
    if es == [] then s else Run(Step(s, es[0]), es[1..])
  }

  /** Everything the library passed to `sendData` during a run. */
  function SentBytes(es: seq<Event>): Bytes {
    if es == [] then [] else (if es[0].Send? then es[0].data else []) + SentBytes(es[1..])
  }

  /** How often the library called `sendData` during a run. */
  function SendCalls(es: seq<Event>): nat {
    if es == [] then 0 else (if es[0].Send? then 1 else 0) + SendCalls(es[1..])
  }

  /** Everything the socket delivered during a run. */
  function ArrivedBytes(es: seq<Event>): Bytes {
    if es == [] then [] else (if es[0].Arrive? then es[0].chunk else []) + ArrivedBytes(es[1..])
  }
}
