/**
 * The server side of a connection, as the class of `src/connection.cpp`. The
 * ghost field `model` carries the state of the engine; `Tied` says that the real
 * fields are those of the model, and every handler is a step of the engine.
 */
module ServerConnection {
  import opened Octets
  import E = Engine
  import opened EngineInvariant

  class Connection {
    const buffer: array<byte>
    var writeBuffer: Bytes
    var nextWriteBuffer: Bytes
    var bytesToWrite: nat
    var disconnectRequested: bool
    var socketOpen: bool
    ghost var model: E.State

    ghost predicate Tied()
      reads this, buffer
    {
      var w := model.writer;
      && model.kind == E.Server
      && w.writeBuffer == writeBuffer && w.nextWriteBuffer == nextWriteBuffer
      && w.bytesToWrite == bytesToWrite && w.disconnectRequested == disconnectRequested
      && w.open == socketOpen
      && model.reader.buffer == buffer[..]
    }

    ghost predicate Valid()
      reads this, buffer
    {
      Tied() && Inv(model)
    }

    /** An accepted connection, whose first read is started by `process`. */
    constructor (bufferSize: nat)
      ensures Valid() && fresh(buffer) && buffer.Length == bufferSize
      ensures model == E.Init(E.Server, bufferSize)
    {
      buffer := new byte[bufferSize](_ => 0);
      writeBuffer, nextWriteBuffer, bytesToWrite := [], [], 0;
      disconnectRequested, socketOpen := false, true;
      model := E.Init(E.Server, bufferSize);
      new;
      InvInit(E.Server, bufferSize);
    }

    method SendData(data: Bytes)
      requires Tied()
      modifies this
      ensures Tied() && model == old(model).(writer := E.SendData(old(model.writer), data))
    {
      model := model.(writer := E.SendData(model.writer, data));
      if bytesToWrite != 0 {
        nextWriteBuffer := nextWriteBuffer + data;
        return;
      }
      if nextWriteBuffer != [] {
        writeBuffer := nextWriteBuffer + data;
        nextWriteBuffer := [];
      } else {
        writeBuffer := data;
      }
      bytesToWrite := SizeAdd(bytesToWrite, |writeBuffer|);
    }

    method OnBytesWritten(numOfBytes: nat)
      requires Tied()
      modifies this
      ensures Tied() && model == old(model).(writer := E.OnBytesWritten(old(model.writer), numOfBytes))
    {
      bytesToWrite := SizeSub(bytesToWrite, numOfBytes);
      model := model.(writer := model.writer.(bytesToWrite := bytesToWrite));
      if bytesToWrite != 0 {
        return;
      }
      if nextWriteBuffer != [] {
        SendData([]);
      } else if disconnectRequested {
        Close();
      }
    }

    method Disconnect()
      requires Tied()
      modifies this
      ensures Tied() && model == old(model).(writer := E.Disconnect(old(model.writer)))
    {
      disconnectRequested := true;
      model := model.(writer := model.writer.(disconnectRequested := true));
      if bytesToWrite > 0 {
        return;
      }
      Close();
    }

    method Close()
      requires Tied()
      modifies this
      ensures Tied() && model == old(model).(writer := E.Close(old(model.writer)))
    {
      socketOpen := false;
      disconnectRequested := false;
      model := model.(writer := E.Close(model.writer));
    }

    method Process()
      requires Tied()
      modifies this
      ensures Tied() && model == old(model).(reader := E.StartRead(E.Server, socketOpen, old(model.reader)))
    {
      model := model.(reader := E.StartRead(E.Server, socketOpen, model.reader));
    }

    // -------------------------------------------------------------------------
    // Calls of the library and handlers, each a step of the engine
    // -------------------------------------------------------------------------

    /** The library sends a piece of a response. */
    method Send(data: Bytes)
      requires Valid() && E.Enabled(model, E.Send(data))
      modifies this
      ensures Valid() && model == E.Step(old(model), E.Send(data))
    {
      InvStep(model, E.Send(data));
      SendData(data);
    }

    /** The library asks to end the connection. */
    method AskDisconnect()
      requires Valid() && E.Enabled(model, E.AskDisconnect)
      modifies this
      ensures Valid() && model == E.Step(old(model), E.AskDisconnect)
    {
      InvStep(model, E.AskDisconnect);
      Disconnect();
    }

    /** The completion handler of write `i`. */
    method WriteHandler(ghost i: nat, error: bool, bytesWritten: nat)
      requires Valid() && E.Enabled(model, if error then E.WriteFail(i) else E.WriteDone(i))
      requires !error ==> bytesWritten == model.writer.ops[i].len
      modifies this
      ensures Valid() && model == E.Step(old(model), if error then E.WriteFail(i) else E.WriteDone(i))
    {
      InvStep(model, if error then E.WriteFail(i) else E.WriteDone(i));
      if error {
        WriteFailed(i);
      } else {
        WriteSucceeded(i, bytesWritten);
      }
    }

    method WriteSucceeded(ghost i: nat, bytesWritten: nat)
      requires Tied() && i in model.writer.ops && bytesWritten == model.writer.ops[i].len
      modifies this
      ensures Tied() && model == old(model).(writer := E.HandleWritten(old(model.writer), i))
    {
      model := model.(writer := model.writer.(ops := model.writer.ops - {i}));
      OnBytesWritten(bytesWritten);
      model := model.(writer := E.ReleaseWriter(model.writer));
    }

    method WriteFailed(ghost i: nat)
      requires Tied() && i in model.writer.ops && model.writer.ops[i].sent <= model.writer.ops[i].len
      modifies this
      ensures Tied() && model == old(model).(writer := E.HandleWriteError(E.Server, old(model.writer), i))
    {
      ghost var w := model.writer;
      ghost var op := w.ops[i];
      model := model.(writer := w.(ops := w.ops - {i}, lost := w.lost + E.View(w, op, op.len - op.sent)));
      Close();
      model := model.(writer := E.ReleaseWriter(model.writer));
    }

    /** The socket fills the read buffer. */
    method Fill(ghost i: nat, chunk: Bytes)
      requires Valid() && E.Enabled(model, E.Arrive(i, chunk))
      modifies this`model, buffer
      ensures Valid() && model == E.Step(old(model), E.Arrive(i, chunk))
    {
      InvStep(model, E.Arrive(i, chunk));
      forall k | 0 <= k < |chunk| {
        buffer[k] := chunk[k];
      }
      model := E.Step(model, E.Arrive(i, chunk));
      assert buffer[..] == chunk + old(buffer[..])[|chunk|..];
    }

    /** The completion handler of read `i`, up to the call of `receiveData` with `chunk`. */
    method ReadHandler(ghost i: nat, bytesRead: nat) returns (chunk: Bytes)
      requires Valid() && E.Enabled(model, E.ReceiveBegin(i)) && model.reader.ops[i].count == bytesRead
      modifies this
      ensures Valid() && model == E.Step(old(model), E.ReceiveBegin(i))
      ensures model.reader.delivered == old(model.reader.delivered) + chunk
      ensures model.reader.delivered == model.reader.arrived
    {
      InvStep(model, E.ReceiveBegin(i));
      chunk := buffer[..bytesRead];
      model := E.Step(model, E.ReceiveBegin(i));
    }

    /** The rest of the handler, after `receiveData` has returned. */
    method ReadHandlerEnd()
      requires Valid() && E.Enabled(model, E.ReceiveEnd)
      modifies this
      ensures Valid() && model == E.Step(old(model), E.ReceiveEnd)
    {
      InvStep(model, E.ReceiveEnd);
      model := model.(reader := model.reader.(consuming := false));
      Process();
      model := model.(reader := E.ReleaseReader(model.reader));
    }

    /** The completion handler of read `i` with an error. */
    method ReadErrorHandler(ghost i: nat, aborted: bool)
      requires Valid() && E.Enabled(model, E.ReadFail(i, aborted))
      modifies this
      ensures Valid() && model == E.Step(old(model), E.ReadFail(i, aborted))
    {
      InvStep(model, E.ReadFail(i, aborted));
      model := model.(reader := model.reader.(ops := E.Without(model.reader.ops, i)));
      if !aborted {
        Close();
      }
      model := model.(reader := E.ReleaseReader(model.reader));
    }
  }
}
