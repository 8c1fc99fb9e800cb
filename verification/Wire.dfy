/** The binary form of a message, and how it travels as USB transfers:
    libqdb/protocol/qdbmessage.cpp, libqdb/protocol/qdbtransport.cpp and the
    framing in usbconnection.cpp and usbgadgetreader.cpp. */
module Wire {
  import opened Protocol

  const NULL_LENGTH := 0xFFFF_FFFF

  function Code(command: Command): (n: nat)
    ensures n < TWO_32 && (n == 0 <==> command == Invalid)
  {
    match command
    case Invalid => 0
    case Connect => 0x434E_584E
    case Refuse => 0x5246_5345
    case Open => 0x4F50_454E
    case Write => 0x5752_5445
    case Close => 0x434C_5345
    case Ok => 0x4F4B_4159
  }

  function ToCommandType(n: nat): Command {
    if n == 0x434E_584E then Connect
    else if n == 0x5246_5345 then Refuse
    else if n == 0x4F50_454E then Open
    else if n == 0x5752_5445 then Write
    else if n == 0x434C_5345 then Close
    else if n == 0x4F4B_4159 then Ok
    else Invalid
  }

  /** The four-byte codes are distinct, and nothing else is taken for a command. */
  lemma CodesAreInverse(n: nat, command: Command)
    ensures ToCommandType(Code(command)) == command
    ensures ToCommandType(n) != Invalid ==> Code(ToCommandType(n)) == n
  {
  }

  /** A message as it is sent: a payload without bytes may be a null QByteArray,
      which is written with the length 0xFFFFFFFF. */
  datatype Outgoing = Outgoing(message: Message, isNull: bool)

  predicate Sendable(o: Outgoing) {
    && o.message.host < TWO_32
    && o.message.dev < TWO_32
    && |o.message.data| <= MAX_PAYLOAD
    && (o.isNull ==> o.message.data == [])
  }

  function LengthField(data: Bytes, isNull: bool): (n: nat)
    requires |data| <= INT_MAX
    ensures n < TWO_32
  {
    if isNull then NULL_LENGTH else |data|
  }

  function Header(o: Outgoing): (h: Bytes)
    requires Sendable(o)
    ensures |h| == HEADER_SIZE
  {
    BigEndian(Code(o.message.command)) + BigEndian(o.message.host) + BigEndian(o.message.dev)
      + BigEndian(LengthField(o.message.data, o.isNull))
  }

  /** operator<<. */
  function Encode(o: Outgoing): (b: Bytes)
    requires Sendable(o)
    ensures |b| == HEADER_SIZE + |o.message.data|
  {
    Header(o) + o.message.data
  }

  function Drop(b: Bytes, n: nat): Bytes {
    if n <= |b| then b[n..] else []
  }

  /** A QByteArray as QDataStream reads it: nothing when the length says null or
      reaches beyond the end. */
  function ReadByteArray(b: Bytes): Bytes {
    var length, rest := ReadUint32(b), Drop(b, 4);
    if length == NULL_LENGTH || length > |rest| then [] else rest[..length]
  }

  /** operator>>. */
  function Decode(b: Bytes): Message {
    Message(ToCommandType(ReadUint32(b)), ReadUint32(Drop(b, 4)), ReadUint32(Drop(b, 8)), ReadByteArray(Drop(b, 12)))
  }

  function Zeros(n: nat): (b: Bytes)
    ensures |b| == n && forall i :: 0 <= i < n ==> b[i] == 0
  {
    seq(n, _ => 0)
  }

  /** QdbTransport::receive of what one read of the device returned. */
  function Received(read: Bytes): Message
    requires |read| <= MESSAGE_SIZE
  {
    if |read| < HEADER_SIZE then Message(Invalid, 0, 0, [])
    else Decode(read + Zeros(MESSAGE_SIZE - |read|))
  }

  /** QdbMessage::GetDataSize. */
  function DataSize(header: Bytes): nat {
    var field := ReadUint32(Drop(header, 12));
    if field == NULL_LENGTH then 0 else field
  }

  /** A word in a buffer, and what is left behind it. */
  lemma Word(b: Bytes, from: nat, n: nat, tail: Bytes)
    requires n < TWO_32 && Drop(b, from) == BigEndian(n) + tail
    ensures ReadUint32(Drop(b, from)) == n && Drop(b, from + 4) == tail
  {
    ReadBigEndian(n, tail);
    assert Drop(b, from + 4) == Drop(Drop(b, from), 4);
  }

  lemma HeaderFields(o: Outgoing, rest: Bytes)
    requires Sendable(o)
    ensures var b := Header(o) + rest;
      && ReadUint32(b) == Code(o.message.command)
      && ReadUint32(Drop(b, 4)) == o.message.host
      && ReadUint32(Drop(b, 8)) == o.message.dev
      && ReadUint32(Drop(b, 12)) == LengthField(o.message.data, o.isNull)
      && Drop(b, 16) == rest
  {
    var b, m, length := Header(o) + rest, o.message, LengthField(o.message.data, o.isNull);
    FourWords(b, BigEndian(Code(m.command)), BigEndian(m.host), BigEndian(m.dev), BigEndian(length), rest);
    Word(b, 0, Code(m.command), BigEndian(m.host) + (BigEndian(m.dev) + (BigEndian(length) + rest)));
    Word(b, 4, m.host, BigEndian(m.dev) + (BigEndian(length) + rest));
    Word(b, 8, m.dev, BigEndian(length) + rest);
    Word(b, 12, length, rest);
  }

  lemma FourWords(b: Bytes, w: Bytes, x: Bytes, y: Bytes, z: Bytes, rest: Bytes)
    requires b == w + x + y + z + rest
    ensures Drop(b, 0) == b == w + (x + (y + (z + rest)))
  {
  }

  lemma PayloadField(b: Bytes, length: nat, data: Bytes, padding: Bytes)
    requires ReadUint32(b) == length && Drop(b, 4) == data + padding
    requires length == |data| || (length == NULL_LENGTH && data == [])
    requires |data| <= MAX_PAYLOAD
    ensures ReadByteArray(b) == data
  {
    assert (data + padding)[..|data|] == data;
  }

  /** Decoding inverts encoding, whatever follows in the buffer. */
  lemma DecodeEncode(o: Outgoing, padding: Bytes)
    requires Sendable(o)
    ensures Decode(Encode(o) + padding) == o.message
  {
    var b, rest, m := Encode(o) + padding, o.message.data + padding, o.message;
    Associative(Header(o), m.data, padding);
    HeaderFields(o, rest);
    CodesAreInverse(0, m.command);
    assert ToCommandType(ReadUint32(b)) == m.command;
    assert ReadUint32(Drop(b, 4)) == m.host && ReadUint32(Drop(b, 8)) == m.dev;
    assert Drop(Drop(b, 12), 4) == rest by {
      assert Drop(Drop(b, 12), 4) == Drop(b, 16);
    }
    PayloadField(Drop(b, 12), LengthField(m.data, o.isNull), m.data, padding);
  }

  /** A message survives send and receive. */
  lemma ReceivedIsSent(o: Outgoing)
    requires Sendable(o)
    ensures Received(Encode(o)) == o.message
  {
    DecodeEncode(o, Zeros(MESSAGE_SIZE - |Encode(o)|));
  }

  // ---------- Host to device: header and payload are separate transfers ----------

  /** UsbConnection::writeData: the transfers for one message. */
  function Transfers(data: Bytes): (t: seq<Bytes>)
    ensures |t| == if |data| > HEADER_SIZE then 2 else 1
  {
    if |data| > HEADER_SIZE then [data[..HEADER_SIZE], data[HEADER_SIZE..]] else [data]
  }

  /** One read of an endpoint, which takes one transfer; what does not fit is lost. */
  function ReadTransfer(endpoint: seq<Bytes>, size: nat): Option<Bytes> {
    if endpoint == [] then None
    else Some(if |endpoint[0]| <= size then endpoint[0] else endpoint[0][..size])
  }

  function Rest(endpoint: seq<Bytes>): seq<Bytes> {
    if endpoint == [] then [] else endpoint[1..]
  }

  /** The assertion of GetDataSize, for the header that would be read next. */
  predicate SizeFits(endpoint: seq<Bytes>) {
    endpoint != [] && |endpoint[0]| >= HEADER_SIZE ==> DataSize(endpoint[0][..HEADER_SIZE]) <= INT_MAX
  }

  /** UsbGadgetReader::executeRead: what it emits, and what it leaves. */
  function ReadFrame(endpoint: seq<Bytes>): (Option<Bytes>, seq<Bytes>) {
    var header := ReadTransfer(endpoint, HEADER_SIZE);
    if header.None? || |header.value| < HEADER_SIZE then (None, Rest(endpoint))
    else if DataSize(header.value) == 0 then (header, Rest(endpoint))
    else
      var payload := ReadTransfer(Rest(endpoint), DataSize(header.value));
      if payload.None? || |payload.value| < DataSize(header.value) then (None, Rest(Rest(endpoint)))
      else (Some(header.value + payload.value), Rest(Rest(endpoint)))
  }

  /** The reader takes exactly the transfers of one message, and emits its encoding. */
  lemma OneFrame(o: Outgoing, endpoint: seq<Bytes>)
    requires Sendable(o)
    ensures ReadFrame(Transfers(Encode(o)) + endpoint) == (Some(Encode(o)), endpoint)
    ensures SizeFits(Transfers(Encode(o)) + endpoint)
  {
    var e, all := Encode(o), Transfers(Encode(o)) + endpoint;
    HeaderFields(o, []);
    assert Header(o) + [] == Header(o);
    assert e[..HEADER_SIZE] == Header(o) && e[HEADER_SIZE..] == o.message.data;
    if o.message.data == [] {
      assert e == Header(o) && all[0] == e && e[..HEADER_SIZE] == e;
      assert Rest(all) == endpoint;
    } else {
      assert all[0] == Header(o) && all[1] == o.message.data;
      assert all[0][..HEADER_SIZE] == all[0];
      assert Rest(all)[0] == o.message.data;
      assert Rest(Rest(all)) == endpoint;
    }
  }

  predicate AllSendable(os: seq<Outgoing>) {
    forall o :: o in os ==> Sendable(o)
  }

  function Messages(os: seq<Outgoing>): seq<Message> {
    if os == [] then [] else [os[0].message] + Messages(os[1..])
  }

  /** Everything the host's sends put on the endpoint. */
  function SentToDevice(os: seq<Outgoing>): seq<Bytes>
    requires AllSendable(os)
  {
    if os == [] then [] else Transfers(Encode(os[0])) + SentToDevice(os[1..])
  }

  /** Reading and decoding until the endpoint is empty. */
  function ReadAll(endpoint: seq<Bytes>): seq<Message>
    decreases |endpoint|
  {
    if endpoint == [] then []
    else
      var r := ReadFrame(endpoint);
      (if r.0.Some? && |r.0.value| <= MESSAGE_SIZE then [Received(r.0.value)] else []) + ReadAll(r.1)
  }

  /** Wire and framing round trip, host to device. */
  lemma {:induction false} HostToDevice(os: seq<Outgoing>)
    requires AllSendable(os)
    ensures ReadAll(SentToDevice(os)) == Messages(os)
  {
    if os != [] {
      var rest := SentToDevice(os[1..]);
      OneFrame(os[0], rest);
      ReceivedIsSent(os[0]);
      HostToDevice(os[1..]);
      assert SentToDevice(os) != [];
    }
  }

  // ---------- Device to host: one transfer for each message ----------

  function SentToHost(os: seq<Outgoing>): seq<Bytes>
    requires AllSendable(os)
  {
    if os == [] then [] else [Encode(os[0])] + SentToHost(os[1..])
  }

  /** Decoding what the host reads, transfer by transfer. */
  function ReceiveAll(endpoint: seq<Bytes>): seq<Message> {
    if endpoint == [] then []
    else
      var read := ReadTransfer(endpoint, MESSAGE_SIZE).value;
      [Received(read)] + ReceiveAll(endpoint[1..])
  }

  /** Wire round trip, device to host. */
  lemma {:induction false} DeviceToHost(os: seq<Outgoing>)
    requires AllSendable(os)
    ensures ReceiveAll(SentToHost(os)) == Messages(os)
  {
    if os != [] {
      ReceivedIsSent(os[0]);
      DeviceToHost(os[1..]);
    }
  }

  lemma {:induction false} MessagesAt(os: seq<Outgoing>, i: nat)
    requires i < |os|
    ensures |Messages(os)| == |os| && Messages(os)[i] == os[i].message
    decreases |os|
  {
    if |os| > 1 {
      MessagesAt(os[1..], if i > 0 then i - 1 else 0);
    }
  }
}
