/** The message format byte for byte, and what is read from bytes that no sender
    has sent. */
module WireLaws {
  import opened Protocol
  import opened Octets
  import opened Wire

  /** CNXN, RFSE, OPEN, WRTE, CLSE and OKAY in ASCII. */
  function Letters(command: Command): Bytes {
    match command
    case Invalid => [0, 0, 0, 0]
    case Connect => [67, 78, 88, 78]
    case Refuse => [82, 70, 83, 69]
    case Open => [79, 80, 69, 78]
    case Write => [87, 82, 84, 69]
    case Close => [67, 76, 83, 69]
    case Ok => [79, 75, 65, 89]
  }

  lemma CodeLetters(command: Command)
    ensures BigEndian(Code(command)) == Letters(command)
  {
  }

  /** Command, ids, length and payload, in this order; a null payload has the length
      FF FF FF FF. */
  lemma Layout(o: Outgoing)
    requires Sendable(o)
    ensures var m := o.message;
      Encode(o) == Letters(m.command) + BigEndian(m.host) + BigEndian(m.dev)
        + (if o.isNull then [255, 255, 255, 255] else BigEndian(|m.data|)) + m.data
  {
    CodeLetters(o.message.command);
  }

  lemma CommandIs(b: Bytes, command: Command)
    requires |b| >= 4 && command != Invalid
    ensures ToCommandType(ReadUint32(b)) == command <==> b[..4] == Letters(command)
  {
    var n := ReadUint32(b);
    NumberOf(b);
    CodeLetters(command);
    CodesAreInverse(n, command);
    if b[..4] == Letters(command) {
      assert b[0] == Letters(command)[0] && b[1] == Letters(command)[1];
      assert b[2] == Letters(command)[2] && b[3] == Letters(command)[3];
    }
  }

  /** Whatever has been read: less than a header is an invalid message; otherwise the
      first four bytes decide the command, the next eight are the ids, and the
      payload has the length that the header says, filled up with zeros, or is empty
      if no message can be so long. */
  lemma ReceivedOutcome(read: Bytes, command: Command)
    requires |read| <= 16384 && command != Invalid
    ensures var m := Received(read);
      && (|read| < 16 ==> m == Message(Invalid, 0, 0, []))
      && (|read| >= 16 ==>
        var length := ReadUint32(read[12..16]);
        && (m.command == command <==> read[..4] == Letters(command))
        && m.host == ReadUint32(read[4..8]) && m.dev == ReadUint32(read[8..12])
        && (length > 16368 ==> m.data == [])
        && (length <= 16368 ==> m.data == (read[16..] + Zeros(16384 - |read|))[..length]))
  {
    if |read| >= 16 {
      var b := read + Zeros(16384 - |read|);
      CommandIs(b, command);
      assert b[..4] == read[..4];
      assert Drop(b, 4)[..4] == read[4..8] && Drop(b, 8)[..4] == read[8..12] && Drop(b, 12)[..4] == read[12..16];
      FirstFour(Drop(b, 4));
      FirstFour(Drop(b, 8));
      FirstFour(Drop(b, 12));
      assert Drop(Drop(b, 12), 4) == read[16..] + Zeros(16384 - |read|);
    }
  }

  lemma FirstFour(b: Bytes)
    requires |b| >= 4
    ensures ReadUint32(b) == ReadUint32(b[..4])
  {
  }

  /** Whatever is on the endpoint: an incomplete header is dropped, a header without
      payload is emitted alone, and otherwise the payload is emitted behind it if all
      of it arrives in one transfer, and both are dropped if not. The assertion about
      the length fails exactly from 2^31 to the length of a null payload. */
  lemma FrameOutcome(endpoint: seq<Bytes>)
    ensures var (emitted, left) := ReadFrame(endpoint);
      if endpoint == [] || |endpoint[0]| < 16 then
        emitted == None && left == if endpoint == [] then [] else endpoint[1..]
      else
        var header, length := endpoint[0][..16], ReadUint32(endpoint[0][12..16]);
        if length == 0 || length == 4294967295 then emitted == Some(header) && left == endpoint[1..]
        else if |endpoint| == 1 || |endpoint[1]| < length then
          emitted == None && left == if |endpoint| == 1 then [] else endpoint[2..]
        else emitted == Some(header + endpoint[1][..length]) && left == endpoint[2..]
    ensures SizeFits(endpoint) <==>
      endpoint == [] || |endpoint[0]| < 16
      || var length := ReadUint32(endpoint[0][12..16]); length == 4294967295 || length <= 2147483647
  {
    if endpoint != [] && |endpoint[0]| >= 16 {
      var header := endpoint[0][..16];
      ReadsPrefix(endpoint, 16);
      assert Drop(header, 12) == endpoint[0][12..16];
      if |endpoint| > 1 {
        assert Rest(endpoint)[0] == endpoint[1] && Rest(Rest(endpoint)) == endpoint[2..];
        if |endpoint[1]| >= DataSize(header) {
          ReadsPrefix(Rest(endpoint), DataSize(header));
        }
      }
    }
  }

  lemma ReadsPrefix(endpoint: seq<Bytes>, size: nat)
    requires endpoint != [] && |endpoint[0]| >= size
    ensures ReadTransfer(endpoint, size) == Some(endpoint[0][..size])
  {
    if |endpoint[0]| == size {
      assert endpoint[0][..size] == endpoint[0];
    }
  }
}
