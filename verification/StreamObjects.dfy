/** The Stream objects that both sides keep in their stream tables. */
module StreamObjects {
  import opened Protocol
  import opened Streams

  method WrapPacket(packet: Packet) returns (buffer: Bytes)
    ensures buffer == Wrap(packet)
    ensures |buffer| == |packet| + 4 && buffer[4..] == packet
    ensures |packet| < TWO_32 ==> ReadUint32(buffer) == |packet|
  {
    buffer := BigEndian(|packet| % TWO_32);
    buffer := buffer + packet;
    ReadBigEndian(|packet| % TWO_32, packet);
  }

  class Stream {
    const hostId: nat
    const deviceId: nat
    var partlyReceived: bool
    var incomingSize: int
    var incomingData: Bytes

    // History: payloads received, packets emitted, fragments enqueued, packets written.
    ghost var raw: seq<Bytes>
    ghost var got: seq<Packet>
    ghost var frags: seq<Bytes>
    ghost var wrote: seq<Packet>

    ghost function View(): StreamState
      reads this
    {
      StreamState(hostId, deviceId, Assembly(partlyReceived, incomingSize, incomingData), raw, got, frags, wrote)
    }

    constructor (hostId: nat, deviceId: nat)
      ensures View() == NewStream(hostId, deviceId)
    {
      this.hostId, this.deviceId := hostId, deviceId;
      partlyReceived, incomingSize, incomingData := false, 0, [];
      raw, got, frags, wrote := [], [], [], [];
    }

    /** Takes the payload of a Write; `packet` is the packet emitted, if any. */
    method ReceiveMessage(message: Message) returns (packet: Option<Packet>)
      modifies this
      ensures (View(), packet) == Receive(old(View()), message.data)
    {
      assert got + [] == got;
      raw := raw + [message.data];
      if partlyReceived {
        var missing := incomingSize - |incomingData| - |message.data|;
        incomingData := incomingData + message.data;
        if missing > 0 {
          return None;
        }
      } else {
        var packetSize := ToInt(ReadUint32(message.data));
        var dataSize := |message.data| - 4;
        incomingData := if |message.data| >= 4 then message.data[4..] else [];
        if dataSize < packetSize {
          partlyReceived := true;
          incomingSize := packetSize;
          return None;
        }
      }
      packet := Some(incomingData);
      partlyReceived := false;
      incomingSize := 0;
      incomingData := [];
      got := got + [packet.value];
    }
  }
}
