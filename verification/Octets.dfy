/** What the numbers and constants of the protocol are as bytes. */
module Octets {
  import opened Protocol

  predicate StartsWith(data: Bytes, bytes: Bytes) {
    |data| >= |bytes| && data[..|bytes|] == bytes
  }

  /** The bytes of a number, most significant first, determine it. */
  lemma BytesOf(n: nat)
    requires n < TWO_32
    ensures var b := BigEndian(n);
      (b[0] as int) * 0x100_0000 + (b[1] as int) * 0x1_0000 + (b[2] as int) * 0x100 + (b[3] as int) == n
  {
    assert n / 0x100_0000 == n / 0x1_0000 / 256 && n / 0x1_0000 == n / 256 / 256;
  }

  /** What is read is written as the same bytes. */
  lemma NumberOf(b: Bytes)
    requires |b| >= 4
    ensures BigEndian(ReadUint32(b)) == b[..4]
  {
    Digits(b[0], b[1], b[2], b[3]);
    assert b[..4] == [b[0], b[1], b[2], b[3]];
  }

  lemma Digits(a: byte, b: byte, c: byte, d: byte)
    ensures BigEndian((a as int) * 0x100_0000 + (b as int) * 0x1_0000 + (c as int) * 0x100 + (d as int)) == [a, b, c, d]
  {
    var m := (a as int) * 0x1_0000 + (b as int) * 0x100 + (c as int);
    var n := m * 0x100 + (d as int);
    var k := (a as int) * 0x100 + (b as int);
    assert n / 0x100 == m && n % 0x100 == d;
    assert m / 0x100 == k && m % 0x100 == c;
    assert k / 0x100 == a && k % 0x100 == b;
    assert n / 0x1_0000 == n / 0x100 / 0x100 && n / 0x100_0000 == n / 0x100 / 0x100 / 0x100;
  }

  /** What is read is small exactly if the first three bytes are zero; a buffer of
      less than four bytes is read as zero. */
  lemma SmallNumber(data: Bytes, n: nat)
    requires 0 < n < 256
    ensures ReadUint32(data) == n <==> StartsWith(data, [0, 0, 0, n])
  {
    if |data| >= 4 {
      assert data[..4] == [data[0], data[1], data[2], data[3]];
    }
  }

  lemma VersionIsOne(data: Bytes)
    ensures VersionMatches(data) <==> StartsWith(data, [0, 0, 0, 1])
  {
    SmallNumber(data, 1);
  }

  lemma ReasonOf(data: Bytes)
    ensures ToRefuseReason(ReadUint32(data)) == NotConnected <==> StartsWith(data, [0, 0, 0, 1])
    ensures ToRefuseReason(ReadUint32(data)) == UnknownVersion <==> StartsWith(data, [0, 0, 0, 2])
  {
    SmallNumber(data, 1);
    SmallNumber(data, 2);
  }

  const CONNECT: Message := Message(Connect, 0, 0, [0, 0, 0, 1])
  const NOT_CONNECTED: Message := Message(Refuse, 0, 0, [0, 0, 0, 1])
  const UNKNOWN_VERSION: Message := Message(Refuse, 0, 0, [0, 0, 0, 2, 0, 0, 0, 1])

  /** The messages of the handshake, byte for byte. */
  lemma HandshakeMessages()
    ensures ConnectMessage() == CONNECT
    ensures RefuseMessage(NotConnected) == NOT_CONNECTED && RefuseMessage(UnknownVersion) == UNKNOWN_VERSION
  {
  }
}
