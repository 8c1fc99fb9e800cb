/** What the device does with each message in each phase, told by its outcome. */
module DeviceLaws {
  import opened Protocol
  import opened Streams
  import opened DeviceMachine
  import opened Octets
  import H = HostMachine
  import HostLaws

  // ---------- The handshake ----------

  /** The device has forgotten everything but its ids, and has sent `m`. */
  predicate StartsAfresh(d: Device, e: Device, m: Message) {
    && e.queue == [] && e.streams == map[] && e.executors == map[] && e.out == d.out + [m]
    && e.nextId == d.nextId && e.minted == d.minted && e.fault == d.fault
  }

  predicate Accepts(d: Device, e: Device) {
    StartsAfresh(d, e, CONNECT) && e.phase == Connected
  }

  predicate Refuses(d: Device, e: Device, m: Message) {
    StartsAfresh(d, e, m) && e.phase == Disconnected
  }

  lemma ConnectOutcome(d: Device, m: Message, answer: Option<Packet>)
    requires m.command == Command.Connect
    ensures StartsWith(m.data, [0, 0, 0, 1]) ==> Accepts(d, Handle(d, m, answer))
    ensures !StartsWith(m.data, [0, 0, 0, 1]) ==> Refuses(d, Handle(d, m, answer), UNKNOWN_VERSION)
  {
    VersionIsOne(m.data);
    HandshakeMessages();
    var e := Effect(d, m, answer);
    DrainOne(e, e.queue[0]);
  }

  lemma NotConnectedOutcome(d: Device, m: Message, answer: Option<Packet>)
    requires m.command != Command.Connect && d.phase == Disconnected
    ensures Refuses(d, Handle(d, m, answer), NOT_CONNECTED)
  {
    HandshakeMessages();
    var e := Effect(d, m, answer);
    DrainOne(e, e.queue[0]);
  }

  lemma SentLast(out: seq<Message>, m: Message, x: Message)
    requires out + [m] == out + [x]
    ensures m == x
  {
    assert (out + [m])[|out|] == m;
  }

  lemma QueuedBefore(q: Device, e: Device, x: Message)
    requires e.out + e.queue == q.out + q.queue && e.out == q.out + [x]
    ensures x in q.queue
  {
    assert (q.out + q.queue)[|q.out|] == x;
  }

  lemma EffectSendsNothing(d: Device, m: Message, answer: Option<Packet>)
    requires d.phase != Disconnected && m.command != Command.Connect
    ensures Effect(d, m, answer).out == d.out
  {
  }

  /** In a session nothing but Oks, Writes and Closes is sent. */
  lemma SessionSends(d: Device, m: Message, answer: Option<Packet>)
    requires DeviceOk(d) && Supported(m) && m.command != Command.Connect && d.phase != Disconnected
    ensures Handle(d, m, answer).phase != Disconnected
    ensures forall x :: !QueuedOk(x) ==> Handle(d, m, answer).out != d.out + [x]
  {
    var q := Effect(d, m, answer);
    EffectOk(d, m, answer);
    EffectSendsNothing(d, m, answer);
    SessionDrains(q);
  }

  lemma SessionDrains(q: Device)
    requires q.phase != Disconnected && forall x :: x in q.queue ==> QueuedOk(x)
    ensures Drain(q).phase != Disconnected && forall x :: !QueuedOk(x) ==> Drain(q).out != q.out + [x]
  {
    DrainEnds(q);
    DrainKeepsOrder(q);
    forall x | Drain(q).out == q.out + [x]
      ensures QueuedOk(x)
    {
      QueuedBefore(q, Drain(q), x);
    }
  }

  /** For every state and every message: the device accepts exactly the Connects of
      version 1, refuses all others for their version, and refuses everything else
      exactly when it is disconnected. Nothing else disconnects it. */
  lemma HandshakeOutcome(d: Device, m: Message, answer: Option<Packet>)
    requires DeviceOk(d) && Supported(m)
    ensures var e, version := Handle(d, m, answer), StartsWith(m.data, [0, 0, 0, 1]);
      && (Accepts(d, e) <==> m.command == Command.Connect && version)
      && (Refuses(d, e, UNKNOWN_VERSION) <==> m.command == Command.Connect && !version)
      && (Refuses(d, e, NOT_CONNECTED) <==> m.command != Command.Connect && d.phase == Disconnected)
      && (e.phase == Disconnected <==> if m.command == Command.Connect then !version else d.phase == Disconnected)
  {
    var e := Handle(d, m, answer);
    if m.command == Command.Connect {
      ConnectOutcome(d, m, answer);
      Different(d, e);
    } else if d.phase == Disconnected {
      NotConnectedOutcome(d, m, answer);
      Different(d, e);
    } else {
      SessionSends(d, m, answer);
    }
  }

  lemma Different(d: Device, e: Device)
    ensures Refuses(d, e, UNKNOWN_VERSION) ==> !Refuses(d, e, NOT_CONNECTED)
  {
    if Refuses(d, e, UNKNOWN_VERSION) && Refuses(d, e, NOT_CONNECTED) {
      assert |UNKNOWN_VERSION.data| != |NOT_CONNECTED.data|;
      SentLast(d.out, UNKNOWN_VERSION, NOT_CONNECTED);
    }
  }

  /** Both ends: what the device sends for a Connect or when it is disconnected, and
      what that makes of a host that awaits a reply. A Connect of version 1 connects
      it, a Connect of another version ends the exchange without a further Connect,
      and the refusal of anything else makes the host start over. */
  lemma ReplyReaches(h: H.Host, d: Device, m: Message, answer: Option<Packet>)
    requires H.HostOk(h) && h.phase == H.WaitingForConnection && h.queue == []
    requires DeviceOk(d) && Supported(m) && (m.command == Command.Connect || d.phase == Disconnected)
    ensures var out := Handle(d, m, answer).out;
      && |out| == |d.out| + 1
      && var e := H.Handle(h, out[|d.out|]);
         if m.command != Command.Connect then HostLaws.StartsOver(h, e)
         else if StartsWith(m.data, [0, 0, 0, 1]) then e == h.(phase := H.Connected)
         else HostLaws.GivesUp(h, e)
  {
    HandshakeOutcome(d, m, answer);
    var reply := Handle(d, m, answer).out[|d.out|];
    if reply == CONNECT {
      HostLaws.ReplyOpens(h, reply);
    } else {
      HostLaws.HandleOutcome(h, reply);
    }
  }

  // ---------- Sending ----------

  /** The first `k` messages leave: none of them but the last is a Write. After a
      Write the device waits; without one everything leaves. */
  ghost predicate Leave(d: Device, messages: seq<Message>, e: Device, k: nat)
    requires k <= |messages|
  {
    && e.out == d.out + messages[..k] && e.queue == messages[k..]
    && (forall i :: 0 <= i < k - 1 ==> messages[i].command != Write)
    && if k > 0 && messages[k - 1].command == Write then e.phase == Waiting else k == |messages| && e.phase == Connected
  }

  /** `messages` are what is to be sent, in this order. */
  ghost predicate Sends(d: Device, messages: seq<Message>, e: Device) {
    exists k: nat :: k <= |messages| && Leave(d, messages, e, k)
  }

  lemma {:induction false} DrainOutcome(d: Device)
    requires d.phase == Connected && forall m :: m in d.queue ==> QueuedOk(m)
    ensures Sends(d, d.queue, Drain(d))
    decreases |d.queue|
  {
    if d.queue == [] {
      assert d.out + d.queue[..0] == d.out;
      assert Leave(d, d.queue, Drain(d), 0);
    } else {
      var m, sent := d.queue[0], SendHead(d);
      assert m in d.queue && QueuedOk(m);
      if m.command == Write {
        assert d.queue[..1] == [m];
        assert Leave(d, d.queue, Drain(d), 1);
      } else {
        DrainOutcome(sent);
        SendsMore(d, sent, Drain(d));
      }
    }
  }

  /** Message `i` of the queue fails an assertion of processQueue, and it is reached:
      all messages before it neither end the loop nor make the device wait. */
  ghost predicate FaultsAt(phase: Phase, queue: seq<Message>, i: nat) {
    && i < |queue|
    && (forall k :: 0 <= k < i ==> queue[k].command in {Command.Connect, Close, Ok})
    && (queue[i].command in {Invalid, Command.Open} || (queue[i].command == Write && phase != Connected))
  }

  /** Exactly when draining fails an assertion, in any state. */
  lemma {:induction false} DrainFaultsIff(d: Device)
    requires d.phase != Waiting
    ensures Drain(d).fault <==> d.fault || exists i: nat :: FaultsAt(d.phase, d.queue, i)
    decreases |d.queue|
  {
    if d.queue != [] {
      var m, rest := d.queue[0], d.queue[1..];
      if m.command in {Command.Connect, Close, Ok} {
        DrainFaultsIff(SendHead(d));
        forall i: nat
          ensures FaultsAt(d.phase, rest, i) <==> FaultsAt(d.phase, d.queue, i + 1)
        {
          FaultsLater(d.phase, d.queue, i);
        }
        assert !FaultsAt(d.phase, d.queue, 0);
        assert forall i: nat :: FaultsAt(d.phase, d.queue, i) ==> i > 0 && FaultsAt(d.phase, rest, i - 1);
      } else {
        assert forall i: nat :: FaultsAt(d.phase, d.queue, i) ==> i == 0;
        assert FaultsAt(d.phase, d.queue, 0)
          <==> m.command in {Invalid, Command.Open} || (m.command == Write && d.phase != Connected);
      }
    }
  }

  lemma FaultsLater(phase: Phase, queue: seq<Message>, i: nat)
    requires queue != [] && queue[0].command in {Command.Connect, Close, Ok}
    ensures FaultsAt(phase, queue[1..], i) <==> FaultsAt(phase, queue, i + 1)
  {
    if FaultsAt(phase, queue[1..], i) {
      forall k | 0 < k < i + 1
        ensures queue[k].command in {Command.Connect, Close, Ok}
      {
        assert queue[k] == queue[1..][k - 1];
      }
    }
    if FaultsAt(phase, queue, i + 1) {
      forall k | 0 <= k < i
        ensures queue[1..][k].command in {Command.Connect, Close, Ok}
      {
        assert queue[1..][k] == queue[k + 1];
      }
    }
  }

  lemma SendsMore(d: Device, sent: Device, e: Device)
    requires d.queue != [] && d.queue[0].command != Write && d.phase == Connected
    requires sent.out == d.out + [d.queue[0]] && sent.queue == d.queue[1..] && sent.phase == d.phase
    requires Sends(sent, sent.queue, e)
    ensures Sends(d, d.queue, e)
  {
    var k: nat :| k <= |sent.queue| && Leave(sent, sent.queue, e, k);
    var head := d.queue[..k + 1];
    assert head == [d.queue[0]] + sent.queue[..k];
    Associative(d.out, [d.queue[0]], sent.queue[..k]);
    forall i | 0 <= i < k
      ensures d.queue[i].command != Write
    {
      assert i > 0 ==> d.queue[i] == sent.queue[i - 1];
    }
    assert Leave(d, d.queue, e, k + 1);
  }

  lemma SendsFrom(d: Device, q: Device, e: Device)
    requires q.out == d.out && Sends(q, q.queue, e)
    ensures Sends(d, q.queue, e)
  {
    var k: nat :| k <= |q.queue| && Leave(q, q.queue, e, k);
    assert Leave(d, q.queue, e, k);
  }

  /** `messages` are added to what the device has to send, and leave if it is not
      waiting. */
  ghost predicate Adds(d: Device, messages: seq<Message>, e: Device) {
    && d.out <= e.out
    && e.out + e.queue == d.out + d.queue + messages
    && (d.phase == Waiting ==> e.phase == Waiting && e.out == d.out && e.queue == d.queue + messages)
    && (d.phase == Connected ==> d.queue == [] && Sends(d, messages, e))
  }

  lemma AddsOutcome(d: Device, messages: seq<Message>, q: Device)
    requires DeviceOk(d) && d.phase != Disconnected && forall m :: m in messages ==> QueuedOk(m)
    requires q.out == d.out && q.queue == d.queue + messages && q.phase == d.phase
    ensures Adds(d, messages, Drain(q))
  {
    DrainKeepsOrder(q);
    DrainFrame(q);
    Associative(d.out, d.queue, messages);
    if d.phase == Connected {
      assert q.queue == messages;
      DrainOutcome(q);
      SendsFrom(d, q, Drain(q));
    }
  }

  /** A message that is not a Write is on the wire at once, if the device is not
      waiting. */
  lemma AddsOne(d: Device, m: Message, e: Device)
    requires Adds(d, [m], e) && d.phase == Connected && m.command != Write
    ensures e.out == d.out + [m] && e.queue == [] && e.phase == Connected
  {
    var k: nat :| k <= 1 && Leave(d, [m], e, k);
    assert k == 1 && [m][..1] == [m];
  }

  // ---------- In a session ----------

  /** A Write to an unknown stream is answered with a Close for its pair of ids, and
      changes nothing else. */
  lemma StrayWriteOutcome(d: Device, m: Message, answer: Option<Packet>)
    requires DeviceOk(d) && d.phase != Disconnected && m.command == Write && m.dev !in d.streams
    ensures var e, reply := Handle(d, m, answer), Message(Close, m.host, m.dev, []);
      && e.out + e.queue == d.out + d.queue + [reply]
      && e.streams == d.streams && e.executors == d.executors && e.nextId == d.nextId && e.minted == d.minted
      && e.phase == d.phase
      && (d.phase == Connected ==> e.out == d.out + [reply] && e.queue == [])
      && (d.phase == Waiting ==> e.out == d.out && e.queue == d.queue + [reply])
  {
    var reply, q := Message(Close, m.host, m.dev, []), Effect(d, m, answer);
    AddsOutcome(d, [reply], q);
    DrainFrame(q);
    if d.phase == Connected {
      AddsOne(d, reply, Drain(q));
    }
  }

  /** The executor is the one that the first four bytes of the tag name. */
  lemma ExecutorNamed(tag: Bytes)
    ensures ExecutorFor(tag) == Echo <==> StartsWith(tag, [0, 0, 0, 1])
    ensures ExecutorFor(tag) == Handshake <==> StartsWith(tag, [0, 0, 0, 2])
    ensures ExecutorFor(tag) == NetworkConfiguration <==> StartsWith(tag, [0, 0, 0, 3])
  {
    SmallNumber(tag, 1);
    SmallNumber(tag, 2);
    SmallNumber(tag, 3);
  }

  /** An Open gets the next device id, which has never been used; its Ok is added to
      what the device sends. The executor is the one that the first four bytes of
      the tag name, and no other executor or stream changes. */
  lemma OpenOutcome(d: Device, m: Message, answer: Option<Packet>)
    requires DeviceOk(d) && d.phase != Disconnected && m.command == Open
    ensures var e, id, reply := Handle(d, m, answer), d.nextId, Message(Ok, m.host, d.nextId, []);
      && e.out + e.queue == d.out + d.queue + [reply]
      && (d.phase == Connected ==> e.out == d.out + [reply] && e.queue == [])
      && (d.phase == Waiting ==> e.out == d.out && e.queue == d.queue + [reply])
      && e.phase == d.phase && e.nextId == id + 1 && e.minted == d.minted[id := m.host]
      && id !in d.streams
      && e.streams == d.streams[id := StreamState(m.host, id, Assembly(false, 0, []), [], [], [], [])]
      && id in e.executors && e.executors == d.executors[id := e.executors[id]]
      && (e.executors[id] == Echo <==> StartsWith(m.data, [0, 0, 0, 1]))
      && (e.executors[id] == Handshake <==> StartsWith(m.data, [0, 0, 0, 2]))
      && (e.executors[id] == NetworkConfiguration <==> StartsWith(m.data, [0, 0, 0, 3]))
      && (e.executors[id] == NoExecutor <==>
           |m.data| < 4 || (m.data[..4] != [0, 0, 0, 1] && m.data[..4] != [0, 0, 0, 2] && m.data[..4] != [0, 0, 0, 3]))
  {
    var reply, q := Message(Ok, m.host, d.nextId, []), Effect(d, m, answer);
    ExecutorNamed(m.data);
    AddsOutcome(d, [reply], q);
    DrainFrame(q);
    if d.phase == Connected {
      AddsOne(d, reply, Drain(q));
    }
  }

  /** What the executor of a stream writes when `packet` has arrived. */
  predicate Writes(executor: Executor, packet: Option<Packet>, answer: Option<Packet>, written: Option<Packet>) {
    match executor
    case NoExecutor => written == None
    case Echo => written == packet
    case Handshake => written == if packet.Some? then answer else None
    case NetworkConfiguration => written == if packet.Some? then answer else None
  }

  /** The Ok for a Write, and behind it the Writes of the packet that is `written`,
      if any. */
  ghost predicate OkAndWrites(m: Message, s: StreamState, written: Option<Packet>, messages: seq<Message>) {
    && messages != [] && messages[0] == Message(Ok, m.host, m.dev, [])
    && if written.Some? then ArePacket(messages[1..], s.host, s.dev, written.value) else messages[1..] == []
  }

  /** The stream has received `payload`, and its executor has written `written`. */
  predicate Received(s: StreamState, payload: Bytes, written: Option<Packet>, t: StreamState) {
    && t.assembly == Feed(s.assembly, payload).0 && t.raw == s.raw + [payload]
    && t.got == s.got + ToSeq(Feed(s.assembly, payload).1) && t.wrote == s.wrote + ToSeq(written)
  }

  lemma AnsweredIs(s: StreamState, payload: Bytes, written: Option<Packet>)
    ensures Received(s, payload, written, Answered(s, payload, written))
  {
    assert s.wrote + [] == s.wrote;
  }

  function Answers(m: Message, s: StreamState, written: Option<Packet>): seq<Message> {
    [Message(Ok, m.host, m.dev, [])] + WriteMessages(s.host, s.dev, ResponseFragments(written))
  }

  lemma AnswersAre(m: Message, s: StreamState, written: Option<Packet>)
    ensures OkAndWrites(m, s, written, Answers(m, s, written))
    ensures forall x :: x in Answers(m, s, written) ==> QueuedOk(x)
  {
    assert Answers(m, s, written)[1..] == WriteMessages(s.host, s.dev, ResponseFragments(written));
    if written.Some? {
      PacketWrites(s.host, s.dev, written.value);
    }
  }

  lemma ResponseIs(d: Device, m: Message, answer: Option<Packet>, written: Option<Packet>)
    requires m.dev in d.streams && m.dev in d.executors
    requires Writes(d.executors[m.dev], Feed(d.streams[m.dev].assembly, m.data).1, answer, written)
    ensures Response(d, m, answer) == written
  {
  }

  lemma WriteEffect(d: Device, m: Message, answer: Option<Packet>, written: Option<Packet>)
    requires DeviceOk(d) && d.phase != Disconnected && m.command == Write && m.dev in d.streams
    requires Writes(d.executors[m.dev], Feed(d.streams[m.dev].assembly, m.data).1, answer, written)
    ensures var s := d.streams[m.dev];
      Effect(d, m, answer) == d.(
        queue := d.queue + Answers(m, s, written), streams := d.streams[m.dev := Answered(s, m.data, written)])
  {
    ResponseIs(d, m, answer, written);
    assert Effect(d, m, answer) == ReceivedWrite(d, m, answer);
  }

  /** A Write to an open stream adds its Ok and the Writes of what the executor
      writes, and changes no other stream. */
  lemma WriteOutcome(d: Device, m: Message, answer: Option<Packet>, written: Option<Packet>)
    requires DeviceOk(d) && d.phase != Disconnected && m.command == Write && m.dev in d.streams
    requires Writes(d.executors[m.dev], Feed(d.streams[m.dev].assembly, m.data).1, answer, written)
    ensures var e, s := Handle(d, m, answer), d.streams[m.dev];
      && (exists messages :: OkAndWrites(m, s, written, messages) && Adds(d, messages, e))
      && e.executors == d.executors && e.nextId == d.nextId && e.minted == d.minted
      && m.dev in e.streams && e.streams == d.streams[m.dev := e.streams[m.dev]]
      && Received(s, m.data, written, e.streams[m.dev])
  {
    var s, q := d.streams[m.dev], Effect(d, m, answer);
    WriteEffect(d, m, answer, written);
    AnswersAre(m, s, written);
    AnsweredIs(s, m.data, written);
    AddsOutcome(d, Answers(m, s, written), q);
    DrainFrame(q);
  }

  /** On a stream without executor, or before the packet is complete, that is the Ok
      alone; it leaves at once if the device is not waiting. */
  lemma OkAlone(d: Device, m: Message, answer: Option<Packet>)
    requires DeviceOk(d) && d.phase != Disconnected && m.command == Write && m.dev in d.streams
    requires d.executors[m.dev] == NoExecutor || Feed(d.streams[m.dev].assembly, m.data).1 == None
    ensures var e, ok := Handle(d, m, answer), Message(Ok, m.host, m.dev, []);
      && e.phase == d.phase
      && (d.phase == Connected ==> e.out == d.out + [ok] && e.queue == [])
      && (d.phase == Waiting ==> e.out == d.out && e.queue == d.queue + [ok])
  {
    WriteEffect(d, m, answer, None);
    var ok, q := Message(Ok, m.host, m.dev, []), Effect(d, m, answer);
    assert q.queue == d.queue + [ok];
    AddsOutcome(d, [ok], q);
    DrainFrame(q);
    if d.phase == Connected {
      AddsOne(d, ok, Drain(q));
    }
  }

  lemma CloseEffect(d: Device, m: Message, answer: Option<Packet>)
    requires d.phase != Disconnected && m.command == Close
    ensures var q := Effect(d, m, answer);
      && q.streams == d.streams - {m.dev} && q.nextId == d.nextId && q.minted == d.minted
      && (d.executors.Keys == d.streams.Keys ==> q.executors == d.executors - {m.dev})
      && q.queue == (if m.dev in d.streams then WithoutDev(d.queue, m.dev) else d.queue)
      && q.out == d.out && q.phase == Connected
  {
  }

  /** A Close removes its stream, its executor and what is queued for it, and ends a
      wait, so that what is left is sent. It is not answered, even if the stream is
      unknown. */
  lemma CloseOutcome(d: Device, m: Message, answer: Option<Packet>)
    requires DeviceOk(d) && d.phase != Disconnected && m.command == Close
    ensures var e := Handle(d, m, answer);
      && e.streams == d.streams - {m.dev} && e.executors == d.executors - {m.dev}
      && e.nextId == d.nextId && e.minted == d.minted
      && Sends(d, if m.dev in d.streams then WithoutDev(d.queue, m.dev) else d.queue, e)
  {
    var q := Effect(d, m, answer);
    CloseEffect(d, m, answer);
    DrainFrame(q);
    DrainOutcome(q);
    SendsFrom(d, q, Drain(q));
  }

  /** An Ok ends a wait, so that the queue is sent up to the next Write; otherwise it
      is ignored. */
  lemma OkOutcome(d: Device, m: Message, answer: Option<Packet>)
    requires DeviceOk(d) && d.phase != Disconnected && m.command == Ok
    ensures var e := Handle(d, m, answer);
      && e.streams == d.streams && e.executors == d.executors && e.nextId == d.nextId && e.minted == d.minted
      && Sends(d, d.queue, e) && (d.phase == Connected ==> e == d)
  {
    var q := d.(phase := Connected);
    assert Handle(d, m, answer) == Drain(q);
    DrainFrame(q);
    DrainOutcome(q);
    SendsFrom(d, q, Drain(q));
  }
}
