/** Fragmentation and reassembly of packets: libqdb/stream.cpp. */
module Streams {
  import opened Protocol

  type Packet = Bytes

  /** The packets an application may write: not empty, and with room for the
      length prefix in a buffer whose size is a C++ int. */
  predicate IsPacket(p: Packet) {
    0 < |p| <= INT_MAX - 4
  }

  predicate ArePackets(ps: seq<Packet>) {
    forall p :: p in ps ==> IsPacket(p)
  }

  /** A packet with its length prefix. */
  function Wrap(packet: Packet): Bytes {
    BigEndian(|packet| % TWO_32) + packet
  }

  lemma PacketLimit(p: Packet)
    ensures IsPacket(p) <==> p != [] && |Wrap(p)| <= 0x7FFF_FFFF
  {
  }

  /** `data` cut into pieces of MAX_PAYLOAD bytes, the last one possibly shorter. */
  function Fragments(data: Bytes): seq<Bytes> {
    if data == [] then []
    else
      var split := if |data| < MAX_PAYLOAD then |data| else MAX_PAYLOAD;
      [data[..split]] + Fragments(data[split..])
  }

  /** Everything that the write of `packets`, one after the other, enqueues. */
  function Stream(packets: seq<Packet>): seq<Bytes> {
    if packets == [] then [] else Fragments(Wrap(packets[0])) + Stream(packets[1..])
  }

  /** The reassembly state: m_partlyReceived, m_incomingSize, m_incomingData. */
  datatype Assembly = Assembly(partly: bool, size: int, data: Bytes)

  const IDLE := Assembly(false, 0, [])

  /** uint32_t to int. */
  function ToInt(n: nat): int
    requires n < TWO_32
  {
    if n <= INT_MAX then n else n - TWO_32
  }

  function Mid(data: Bytes, position: nat): Bytes {
    if position <= |data| then data[position..] else []
  }

  /** One payload through the reassembly, as a release build does it (the
      assertions do nothing); the second component is the emitted packet. */
  function Feed(a: Assembly, payload: Bytes): (Assembly, Option<Packet>) {
    if a.partly then
      var missing := a.size - |a.data| - |payload|;
      var data := a.data + payload;
      if missing > 0 then (a.(data := data), None) else (IDLE, Some(data))
    else
      var packetSize := ToInt(ReadUint32(payload));
      var dataSize := |payload| - 4;
      var data := Mid(payload, 4);
      if dataSize < packetSize then (Assembly(true, packetSize, data), None) else (IDLE, Some(data))
  }

  /** The assertions of receiveMessage: a first fragment holds the whole length
      prefix, and no fragment reaches beyond its packet. */
  predicate FitsPacket(a: Assembly, payload: Bytes) {
    if a.partly then a.size - |a.data| - |payload| >= 0
    else |payload| >= 4 && |payload| - 4 <= ToInt(ReadUint32(payload))
  }

  function ToSeq<T>(o: Option<T>): seq<T> {
    if o.Some? then [o.value] else []
  }

  /** A sequence of payloads through the reassembly, and the packets emitted. */
  function FeedAll(a: Assembly, payloads: seq<Bytes>): (Assembly, seq<Packet>)
    decreases payloads
  {
    if payloads == [] then (a, [])
    else
      var first := Feed(a, payloads[0]);
      var rest := FeedAll(first.0, payloads[1..]);
      (rest.0, ToSeq(first.1) + rest.1)
  }

  predicate AllFit(a: Assembly, payloads: seq<Bytes>)
    decreases payloads
  {
    payloads == [] || (FitsPacket(a, payloads[0]) && AllFit(Feed(a, payloads[0]).0, payloads[1..]))
  }

  lemma {:induction false} FeedAllAppend(a: Assembly, s: seq<Bytes>, t: seq<Bytes>)
    ensures FeedAll(a, s + t) == (FeedAll(FeedAll(a, s).0, t).0, FeedAll(a, s).1 + FeedAll(FeedAll(a, s).0, t).1)
    ensures AllFit(a, s + t) <==> AllFit(a, s) && AllFit(FeedAll(a, s).0, t)
    decreases s
  {
    if s == [] {
      assert s + t == t;
      assert [] + FeedAll(a, t).1 == FeedAll(a, t).1;
    } else {
      assert (s + t)[1..] == s[1..] + t && (s + t)[0] == s[0];
      FeedAllAppend(Feed(a, s[0]).0, s[1..], t);
      var head, tail := ToSeq(Feed(a, s[0]).1), FeedAll(Feed(a, s[0]).0, s[1..]);
      var after := FeedAll(tail.0, t).1;
      assert head + (tail.1 + after) == (head + tail.1) + after;
    }
  }

  /** Concatenation of fragments. */
  function Join(fragments: seq<Bytes>): Bytes {
    if fragments == [] then [] else fragments[0] + Join(fragments[1..])
  }

  lemma {:induction false} StreamAppend(ps: seq<Packet>, qs: seq<Packet>)
    ensures Stream(ps + qs) == Stream(ps) + Stream(qs)
  {
    if ps == [] {
      assert ps + qs == qs;
    } else {
      assert (ps + qs)[1..] == ps[1..] + qs;
      StreamAppend(ps[1..], qs);
    }
  }

  /** Every fragment is non-empty and fits a message, and together they are the data. */
  lemma {:induction false} FragmentsAreExact(data: Bytes)
    ensures Join(Fragments(data)) == data
    ensures forall f :: f in Fragments(data) ==> 0 < |f| <= MAX_PAYLOAD
    ensures |Fragments(data)| == (|data| + 16367) / 16368
    ensures forall i :: 0 <= i < |Fragments(data)| - 1 ==> |Fragments(data)[i]| == 16368
  {
    FragmentSizes(data);
    if data != [] {
      var split := if |data| < MAX_PAYLOAD then |data| else MAX_PAYLOAD;
      FragmentsAreExact(data[split..]);
      assert data == data[..split] + data[split..];
    }
  }

  /** Every piece but the last has exactly 16368 bytes, and each is the part of the
      data at its place. */
  lemma {:induction false} FragmentSizes(data: Bytes)
    ensures |Fragments(data)| == (|data| + 16367) / 16368
    ensures forall i :: 0 <= i < |Fragments(data)| - 1 ==> Fragments(data)[i] == data[16368 * i..16368 * i + 16368]
    ensures forall i :: 0 <= i == |Fragments(data)| - 1 ==> Fragments(data)[i] == data[16368 * i..]
  {
    if data != [] {
      var fs, rest := Fragments(data), data[if |data| < 16368 then |data| else 16368..];
      FragmentSizes(rest);
      assert fs[1..] == Fragments(rest);
      forall i | 0 < i < |fs|
        ensures fs[i] == if i == |fs| - 1 then data[16368 * i..] else data[16368 * i..16368 * i + 16368]
      {
        assert fs[i] == Fragments(rest)[i - 1];
      }
    }
  }

  /** The Writes of one packet: as few as 16368 bytes each allow, all for the pair of
      ids, and together the length and the packet. */
  ghost predicate ArePacket(writes: seq<Message>, host: nat, dev: nat, packet: Packet) {
    && |writes| == (|packet| + 4 + 16367) / 16368
    && forall i :: 0 <= i < |writes| ==>
         writes[i] == Message(Write, host, dev,
           Wrap(packet)[16368 * i..if i == |writes| - 1 then |packet| + 4 else 16368 * i + 16368])
  }

  lemma PacketWrites(host: nat, dev: nat, packet: Packet)
    ensures ArePacket(WriteMessages(host, dev, Fragments(Wrap(packet))), host, dev, packet)
  {
    FragmentSizes(Wrap(packet));
  }

  /** The middle of a packet: fragments of what is still missing complete it. */
  lemma {:induction false} FeedRest(a: Assembly, rest: Bytes)
    requires a.partly && rest != [] && a.size == |a.data| + |rest|
    ensures FeedAll(a, Fragments(rest)) == (IDLE, [a.data + rest])
    ensures AllFit(a, Fragments(rest))
    decreases |rest|
  {
    var split := if |rest| < MAX_PAYLOAD then |rest| else MAX_PAYLOAD;
    var first, others := rest[..split], Fragments(rest[split..]);
    assert rest == first + rest[split..];
    assert Fragments(rest)[0] == first && Fragments(rest)[1..] == others;
    var next := Feed(a, first);
    if split < |rest| {
      FeedRest(next.0, rest[split..]);
      assert next.0.data + rest[split..] == a.data + rest;
      assert [] + [a.data + rest] == [a.data + rest];
    } else {
      assert first == rest && others == [];
      assert [a.data + rest] + [] == [a.data + rest];
    }
  }

  lemma FirstAnnounces(packet: Packet, split: nat)
    requires IsPacket(packet) && 4 <= split <= |packet| + 4
    ensures var first := Wrap(packet)[..split];
      |first| == split && ReadUint32(first) == |packet| && Mid(first, 4) == packet[..split - 4]
  {
    var first, begun := Wrap(packet)[..split], packet[..split - 4];
    ReadBigEndian(|packet|, begun);
    assert first == BigEndian(|packet|) + begun;
    assert Mid(first, 4) == begun;
  }

  /** The first fragment: the receiver is left with the packet, or with its beginning. */
  lemma FeedFirst(packet: Packet, split: nat)
    requires IsPacket(packet) && 4 <= split <= |packet| + 4
    ensures var first, begun := Wrap(packet)[..split], packet[..split - 4];
      && FitsPacket(IDLE, first)
      && Feed(IDLE, first)
        == if split < |packet| + 4 then (Assembly(true, |packet|, begun), None) else (IDLE, Some(packet))
  {
    FirstAnnounces(packet, split);
    assert split == |packet| + 4 ==> packet[..split - 4] == packet;
  }

  lemma {:induction false} FeedOne(packet: Packet)
    requires IsPacket(packet)
    ensures FeedAll(IDLE, Fragments(Wrap(packet))) == (IDLE, [packet])
    ensures AllFit(IDLE, Fragments(Wrap(packet)))
    ensures |Fragments(Wrap(packet))[0]| >= 4
  {
    var data := Wrap(packet);
    var split := if |data| < MAX_PAYLOAD then |data| else MAX_PAYLOAD;
    var others := Fragments(data[split..]);
    assert Fragments(data)[0] == data[..split] && Fragments(data)[1..] == others;
    FeedFirst(packet, split);
    if split < |data| {
      assert data[split..] == packet[split - 4..];
      FeedRest(Assembly(true, |packet|, packet[..split - 4]), data[split..]);
      assert packet[..split - 4] + data[split..] == packet;
      assert [] + [packet] == [packet];
    } else {
      assert others == [] && [packet] + [] == [packet];
    }
  }

  /** Fragmentation round trip: what `write` enqueues for a sequence of packets
      is reassembled into exactly these packets, in order. */
  lemma {:induction false} RoundTrip(packets: seq<Packet>)
    requires ArePackets(packets)
    ensures FeedAll(IDLE, Stream(packets)) == (IDLE, packets)
    ensures AllFit(IDLE, Stream(packets))
    ensures forall f :: f in Stream(packets) ==> 0 < |f| <= MAX_PAYLOAD
  {
    if packets != [] {
      var fs := Fragments(Wrap(packets[0]));
      FeedOne(packets[0]);
      FragmentsAreExact(Wrap(packets[0]));
      RoundTrip(packets[1..]);
      FeedAllAppend(IDLE, fs, Stream(packets[1..]));
      assert packets == [packets[0]] + packets[1..];
    }
  }

  /** In-order, intact prefix: whatever part of the fragments has arrived, the
      packets emitted are the first of those written, and the next fragment
      satisfies the receiver's assertions. */
  lemma {:induction false} PrefixIsIntact(packets: seq<Packet>, arrived: seq<Bytes>, coming: seq<Bytes>)
    requires ArePackets(packets)
    requires Stream(packets) == arrived + coming
    ensures FeedAll(IDLE, arrived).1 <= packets
    ensures coming == [] ==> FeedAll(IDLE, arrived) == (IDLE, packets)
    ensures coming != [] ==> FitsPacket(FeedAll(IDLE, arrived).0, coming[0])
  {
    RoundTrip(packets);
    FeedAllAppend(IDLE, arrived, coming);
    if coming == [] {
      assert arrived + coming == arrived;
    }
  }

  /** The size that a first payload announces: its first four bytes as a signed
      number, or zero if there are fewer. */
  function Announced(payload: Bytes): int {
    if |payload| < 4 then 0
    else
      (if payload[0] < 128 then payload[0] as int else payload[0] as int - 256) * 0x100_0000
      + (payload[1] as int) * 0x1_0000 + (payload[2] as int) * 0x100 + (payload[3] as int)
  }

  /** Whatever the payload is: nothing received is lost, a packet is emitted exactly
      when at least the announced size has arrived, and the next packet then begins
      with a payload of its own. The assertions hold exactly if no more has arrived,
      and a first payload has its four bytes. */
  lemma FeedOutcome(a: Assembly, payload: Bytes)
    ensures var r := Feed(a, payload);
      var size := if a.partly then a.size else Announced(payload);
      var bytes := if a.partly then a.data + payload else if |payload| < 4 then [] else payload[4..];
      var arrived := if a.partly then |bytes| else |payload| - 4;
      && (r == (Assembly(false, 0, []), Some(bytes)) <==> arrived >= size)
      && (r == (Assembly(true, size, bytes), None) <==> arrived < size)
      && (FitsPacket(a, payload) <==> arrived <= size && (a.partly || |payload| >= 4))
  {
  }

  /** One end of a stream. `raw`, `got`, `frags` and `wrote` are its history:
      payloads received, packets emitted, fragments enqueued, packets written. */
  datatype StreamState = StreamState(
    host: nat, dev: nat, assembly: Assembly,
    raw: seq<Bytes>, got: seq<Packet>, frags: seq<Bytes>, wrote: seq<Packet>)

  /** The packets emitted are those of the payloads received. */
  ghost predicate InboxOk(s: StreamState) {
    FeedAll(IDLE, s.raw) == (s.assembly, s.got)
  }

  /** The fragments enqueued are those of the packets written. */
  ghost predicate OutboxOk(s: StreamState) {
    s.frags == Stream(s.wrote)
  }

  function NewStream(host: nat, dev: nat): (s: StreamState)
    ensures InboxOk(s) && OutboxOk(s)
  {
    StreamState(host, dev, IDLE, [], [], [], [])
  }

  /** receiveMessage. */
  function Receive(s: StreamState, payload: Bytes): (r: (StreamState, Option<Packet>))
    ensures InboxOk(s) ==> InboxOk(r.0)
    ensures OutboxOk(s) ==> OutboxOk(r.0)
  {
    var r := Feed(s.assembly, payload);
    assert InboxOk(s) ==> FeedAll(IDLE, s.raw + [payload]) == (r.0, s.got + ToSeq(r.1)) by {
      FeedAllAppend(IDLE, s.raw, [payload]);
      assert FeedAll(r.0, []) == (r.0, []);
      assert ToSeq(r.1) + [] == ToSeq(r.1);
      assert [payload][1..] == [];
      assert FeedAll(s.assembly, [payload]) == (r.0, ToSeq(r.1));
    }
    (s.(assembly := r.0, raw := s.raw + [payload], got := s.got + ToSeq(r.1)), r.1)
  }

  /** The history of a stream after the packet `p` has been written to it. */
  function Written(s: StreamState, p: Packet): (r: StreamState)
    ensures OutboxOk(s) ==> OutboxOk(r.(frags := s.frags + Fragments(Wrap(p))))
  {
    assert OutboxOk(s) ==> s.frags + Fragments(Wrap(p)) == Stream(s.wrote + [p]) by {
      StreamAppend(s.wrote, [p]);
    }
    s.(wrote := s.wrote + [p])
  }
}
