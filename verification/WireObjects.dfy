/** The objects under the protocol: the data stream that fills and reads message
    buffers, the transport, and the two ends of the USB connection. */
module WireObjects {
  import opened Protocol
  import opened Wire

  /** The part of QDataStream over a QByteArray that messages use. */
  class DataStream {
    var buffer: Bytes
    var position: nat

    ghost predicate Valid()
      reads this
    {
      position <= |buffer|
    }

    ghost function Written(): Bytes
      reads this
      requires Valid()
    {
      buffer[..position]
    }

    ghost function Unread(): Bytes
      reads this
      requires Valid()
    {
      buffer[position..]
    }

    constructor (buffer: Bytes)
      ensures Valid() && Written() == [] && this.buffer == buffer && Unread() == buffer
    {
      this.buffer, position := buffer, 0;
    }

    /** Writes over what the buffer holds, and beyond its end if need be. */
    method Put(bytes: Bytes)
      requires Valid()
      modifies this
      ensures Valid() && Written() == old(Written()) + bytes
      ensures |buffer| == if old(|Unread()|) < |bytes| then position else old(|buffer|)
    {
      var end := position + |bytes|;
      buffer := buffer[..position] + bytes + Drop(buffer, end);
      position := end;
    }

    method PutMessage(message: Message, isNull: bool)
      requires Valid() && Sendable(Outgoing(message, isNull))
      requires |Unread()| == HEADER_SIZE + |message.data|
      modifies this
      ensures Valid() && buffer == old(Written()) + Encode(Outgoing(message, isNull))
    {
      ghost var o, before := Outgoing(message, isNull), Written();
      Put(BigEndian(Code(message.command)));
      Put(BigEndian(message.host));
      Put(BigEndian(message.dev));
      Put(BigEndian(LengthField(message.data, isNull)));
      Put(message.data);
      assert buffer == Written();
      assert before + Encode(o) == before + BigEndian(Code(message.command)) + BigEndian(message.host)
        + BigEndian(message.dev) + BigEndian(LengthField(message.data, isNull)) + message.data;
    }

    method TakeUint32() returns (n: nat)
      requires Valid()
      modifies this`position
      ensures Valid() && n == ReadUint32(old(Unread())) && Unread() == Drop(old(Unread()), 4)
    {
      if |buffer| - position < 4 {
        position := |buffer|;
        return 0;
      }
      var b := buffer[position..position + 4];
      n := ReadUint32(b);
      position := position + 4;
    }

    method TakeByteArray() returns (data: Bytes)
      requires Valid()
      modifies this`position
      ensures Valid() && data == ReadByteArray(old(Unread()))
    {
      var length := TakeUint32();
      if length == NULL_LENGTH || length > |buffer| - position {
        return [];
      }
      data := buffer[position..position + length];
      position := position + length;
    }

    method TakeMessage() returns (message: Message)
      requires Valid()
      modifies this`position
      ensures Valid() && message == Decode(old(Unread()))
    {
      ghost var b := Unread();
      var command := TakeUint32();
      var host := TakeUint32();
      var dev := TakeUint32();
      assert Drop(Drop(b, 4), 4) == Drop(b, 8) && Drop(Drop(b, 8), 4) == Drop(b, 12);
      var data := TakeByteArray();
      message := Message(ToCommandType(command), host, dev, data);
    }
  }

  /** The host's end: what it has transferred and the device has not yet read, and
      the reads that its reader thread has queued. */
  class UsbConnection {
    var outEndpoint: seq<Bytes>
    var readQueue: seq<Bytes>

    constructor ()
      ensures outEndpoint == [] && readQueue == []
    {
      outEndpoint, readQueue := [], [];
    }

    /** The header as a transfer of its own, to allow a separate read on the device. */
    method WriteData(data: Bytes) returns (count: nat)
      modifies this`outEndpoint
      ensures outEndpoint == old(outEndpoint) + Transfers(data) && count == |data|
    {
      var size := if |data| > HEADER_SIZE then HEADER_SIZE else |data|;
      outEndpoint := outEndpoint + [data[..size]];
      var transferred := 0;
      if size < |data| {
        outEndpoint := outEndpoint + [data[size..]];
        transferred := |data| - size;
      } else {
        assert data[..size] == data;
      }
      return size + transferred;
    }

    method DataRead(data: Bytes)
      modifies this`readQueue
      ensures readQueue == old(readQueue) + [data]
    {
      readQueue := readQueue + [data];
    }

    /** None stands for -1. The read must fit: the source asserts it. */
    method ReadData(maxSize: nat) returns (read: Option<Bytes>)
      requires readQueue != [] ==> |readQueue[0]| <= maxSize
      modifies this`readQueue
      ensures old(readQueue) == [] ==> read == None && readQueue == []
      ensures old(readQueue) != [] ==> read == Some(old(readQueue)[0]) && readQueue == old(readQueue)[1..]
    {
      if readQueue == [] {
        return None;
      }
      read := Some(readQueue[0]);
      readQueue := readQueue[1..];
    }
  }

  /** The host's transport. */
  class QdbTransport {
    const io: UsbConnection

    constructor (io: UsbConnection)
      ensures this.io == io
    {
      this.io := io;
    }

    method Send(message: Message, isNull: bool) returns (ok: bool)
      requires Sendable(Outgoing(message, isNull))
      modifies io`outEndpoint
      ensures ok && io.outEndpoint == old(io.outEndpoint) + Transfers(Encode(Outgoing(message, isNull)))
    {
      var messageSize := HEADER_SIZE + |message.data|;
      var stream := new DataStream(Zeros(messageSize));
      stream.PutMessage(message, isNull);
      var encoded := stream.buffer;
      assert encoded == Encode(Outgoing(message, isNull)) by {
        assert [] + Encode(Outgoing(message, isNull)) == Encode(Outgoing(message, isNull));
      }
      var count := io.WriteData(encoded);
      return count == messageSize;
    }

    /** What could not be read in full is an Invalid message. */
    method Receive() returns (message: Message)
      requires io.readQueue != [] ==> |io.readQueue[0]| <= MESSAGE_SIZE
      modifies io`readQueue
      ensures old(io.readQueue) == [] ==> message.command == Invalid && io.readQueue == []
      ensures old(io.readQueue) != [] ==>
        message == Received(old(io.readQueue)[0]) && io.readQueue == old(io.readQueue)[1..]
    {
      var read := io.ReadData(MESSAGE_SIZE);
      if read.None? || |read.value| < HEADER_SIZE {
        return Message(Invalid, 0, 0, []);
      }
      var stream := new DataStream(read.value + Zeros(MESSAGE_SIZE - |read.value|));
      message := stream.TakeMessage();
    }
  }

  /** The device's reader of what the host has transferred. */
  class UsbGadgetReader {
    var readEndpoint: seq<Bytes>
    /** What has been emitted as newRead. */
    var newReads: seq<Bytes>

    constructor (transfers: seq<Bytes>)
      ensures readEndpoint == transfers && newReads == []
    {
      readEndpoint, newReads := transfers, [];
    }

    /** One read of the endpoint file; None stands for -1. */
    method Read(size: nat) returns (data: Option<Bytes>)
      modifies this`readEndpoint
      ensures data == ReadTransfer(old(readEndpoint), size) && readEndpoint == Rest(old(readEndpoint))
    {
      if readEndpoint == [] {
        return None;
      }
      data := Some(if |readEndpoint[0]| <= size then readEndpoint[0] else readEndpoint[0][..size]);
      readEndpoint := readEndpoint[1..];
    }

    method ExecuteRead()
      requires SizeFits(readEndpoint)
      modifies this
      ensures var r := ReadFrame(old(readEndpoint));
        readEndpoint == r.1 && newReads == old(newReads) + if r.0.Some? then [r.0.value] else []
    {
      var header := Read(HEADER_SIZE);
      if header.None? || |header.value| < HEADER_SIZE {
        return;
      }
      var dataSize := DataSize(header.value);
      if dataSize == 0 {
        newReads := newReads + [header.value];
        return;
      }
      var payload := Read(dataSize);
      if payload.None? || |payload.value| < dataSize {
        return;
      }
      newReads := newReads + [header.value + payload.value];
    }
  }
}
