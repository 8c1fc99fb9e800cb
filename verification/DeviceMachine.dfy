/** The device side of a QDB connection as a function of its state: the net
    effect of qdbd/server.cpp on each message. The handlers of server.cpp
    enqueue message by message; here everything a message triggers is queued
    first and the queue is drained once (see DeviceSide for the step-by-step
    form and the proof that both agree). */
module DeviceMachine {
  import opened Protocol
  import opened Streams

  datatype Phase = Disconnected | Connected | Waiting

  datatype Executor = Echo | Handshake | NetworkConfiguration | NoExecutor

  /** `out` is what has been sent and not yet been received by the host.
      History: `minted` records the host id for which each device id was made,
      `released` counts the Close messages handled in Waiting since the last
      reset, `fault` records that an assertion of processQueue has failed. */
  datatype Device = Device(
    phase: Phase, queue: seq<Message>, streams: map<nat, StreamState>, executors: map<nat, Executor>,
    nextId: nat, out: seq<Message>, minted: map<nat, nat>, released: nat, fault: bool)

  const INITIAL := Device(Disconnected, [], map[], map[], 1, [], map[], 0, false)

  /** What processQueue asserts about a message that leaves the queue. */
  predicate DispatchAllowed(phase: Phase, command: Command) {
    match command
    case Write => phase == Connected
    case Open => false
    case Invalid => false
    case _ => true
  }

  /** What processQueue does to the message at the head of the queue. */
  function SendHead(d: Device): Device
    requires d.queue != []
  {
    d.(queue := d.queue[1..], out := d.out + [d.queue[0]],
       fault := d.fault || !DispatchAllowed(d.phase, d.queue[0].command))
  }

  /** processQueue. */
  function Drain(d: Device): Device
    decreases |d.queue|
  {
    if d.queue == [] || d.phase == Waiting then d
    else
      var m := d.queue[0];
      var sent := SendHead(d);
      match m.command
      case Refuse => sent.(phase := Disconnected)
      case Write => sent.(phase := Waiting)
      case Open => sent
      case Invalid => sent
      case _ => Drain(sent)
  }

  function Queued(d: Device, messages: seq<Message>): Device {
    d.(queue := d.queue + messages)
  }

  function Cleared(d: Device): Device {
    d.(queue := [], streams := map[], executors := map[])
  }

  function Refused(d: Device, reason: RefuseReason): Device {
    Queued(Cleared(d).(phase := Disconnected), [RefuseMessage(reason)])
  }

  function Accepted(d: Device, data: Bytes): Device {
    if !VersionMatches(data) then Refused(d, UnknownVersion)
    else Queued(Cleared(d).(phase := Connected, released := 0), [ConnectMessage()])
  }

  /** createExecutor. */
  function ExecutorFor(tag: Bytes): Executor {
    var n := ReadUint32(tag);
    if n == 1 then Echo else if n == 2 then Handshake else if n == 3 then NetworkConfiguration else NoExecutor
  }

  function Opened(d: Device, host: nat, tag: Bytes): Device {
    Queued(d, [OkMessage(host, d.nextId)]).(
      streams := d.streams[d.nextId := NewStream(host, d.nextId)],
      executors := d.executors[d.nextId := ExecutorFor(tag)],
      minted := d.minted[d.nextId := host],
      nextId := d.nextId + 1)
  }

  /** What an executor writes back when it receives `packet`. Echo writes the
      packet itself; `answer` is what the device's files and configuration make
      the other executors write. */
  function Reply(executor: Executor, packet: Packet, answer: Option<Packet>): Option<Packet> {
    match executor
    case Echo => Some(packet)
    case NoExecutor => None
    case _ => answer
  }

  /** The reply that the Write message `m` triggers. */
  function Response(d: Device, m: Message, answer: Option<Packet>): Option<Packet> {
    if m.dev !in d.streams || m.dev !in d.executors then None
    else
      var packet := Feed(d.streams[m.dev].assembly, m.data).1;
      if packet.None? then None else Reply(d.executors[m.dev], packet.value, answer)
  }

  /** The stream after it has received the payload of `m` and its executor has
      written `response` to it. */
  function Answered(s: StreamState, data: Bytes, response: Option<Packet>): StreamState {
    var r := Receive(s, data).0;
    if response.None? then r
    else Written(r, response.value).(frags := r.frags + Fragments(Wrap(response.value)))
  }

  function ResponseFragments(response: Option<Packet>): seq<Bytes> {
    if response.None? then [] else Fragments(Wrap(response.value))
  }

  function ReceivedWrite(d: Device, m: Message, answer: Option<Packet>): Device {
    if m.dev !in d.streams then Queued(d, [CloseMessage(m.host, m.dev)])
    else
      var s := d.streams[m.dev];
      var response := Response(d, m, answer);
      Queued(d, [OkMessage(m.host, m.dev)] + WriteMessages(s.host, s.dev, ResponseFragments(response))).(
        streams := d.streams[m.dev := Answered(s, m.data, response)])
  }

  function CloseStream(d: Device, id: nat): Device {
    if id !in d.streams then d
    else d.(streams := d.streams - {id}, executors := d.executors - {id}, queue := WithoutDev(d.queue, id))
  }

  /** The switch of handleMessage, with everything it enqueues still queued. */
  function Effect(d: Device, m: Message, answer: Option<Packet>): Device {
    if m.command == Command.Connect then Accepted(d, m.data)
    else if d.phase == Disconnected then Refused(d, NotConnected)
    else
      match m.command
      case Open => Opened(d, m.host, m.data)
      case Write => ReceivedWrite(d, m, answer)
      case Close =>
        var released := if d.phase == Waiting then d.released + 1 else d.released;
        CloseStream(d.(phase := Connected, released := released), m.dev)
      case Ok => d.(phase := Connected)
      case _ => d
  }

  function Handle(d: Device, m: Message, answer: Option<Packet>): Device {
    Drain(Effect(d, m, answer))
  }

  /** No message that handleMessage rejects with qFatal. */
  predicate Supported(m: Message) {
    m.command != Invalid && m.command != Refuse
  }

  // ---------- What holds of the device whatever the host sends ----------

  predicate QueuedOk(m: Message) {
    m.command == Ok || m.command == Write || m.command == Close
  }

  ghost predicate StreamsOk(d: Device) {
    && d.executors.Keys == d.streams.Keys
    && (forall id :: id in d.streams ==> id < d.nextId && d.streams[id].dev == id)
    && (forall id :: id in d.streams ==> InboxOk(d.streams[id]) && OutboxOk(d.streams[id]))
    && (forall id :: id in d.streams && d.executors[id] == Echo ==> d.streams[id].wrote == d.streams[id].got)
  }

  /** Between messages the queue is empty or the device is Waiting. */
  ghost predicate Drained(d: Device) {
    d.queue != [] ==> d.phase == Waiting
  }

  ghost predicate DeviceOk(d: Device) {
    && StreamsOk(d)
    && (forall m :: m in d.queue ==> QueuedOk(m))
    && Drained(d)
    && 1 <= d.nextId
    && !d.fault
  }

  /** Draining changes nothing but the queue, the wire, the phase and the fault flag. */
  lemma {:induction false} DrainFrame(d: Device)
    ensures var e := Drain(d); e == d.(queue := e.queue, out := e.out, phase := e.phase, fault := e.fault)
    ensures d.phase == Waiting ==> Drain(d) == d
    decreases |d.queue|
  {
    if d.queue != [] && d.phase != Waiting {
      DrainFrame(SendHead(d));
    }
  }

  /** Draining sends a prefix of the queue, in order. */
  lemma {:induction false} DrainKeepsOrder(d: Device)
    ensures Drain(d).out + Drain(d).queue == d.out + d.queue
    ensures d.out <= Drain(d).out
    decreases |d.queue|
  {
    if d.queue != [] && d.phase != Waiting {
      var sent := SendHead(d);
      assert sent.out + sent.queue == d.out + d.queue;
      assert d.out <= sent.out;
      DrainKeepsOrder(sent);
    }
  }

  /** Drained: from a queue of answers the device ends Waiting or with nothing queued. */
  lemma {:induction false} DrainEnds(d: Device)
    requires forall m :: m in d.queue ==> QueuedOk(m)
    requires d.phase != Disconnected
    ensures Drained(Drain(d)) && Drain(d).phase != Disconnected && Drain(d).fault == d.fault
    ensures forall m :: m in Drain(d).queue ==> m in d.queue
    decreases |d.queue|
  {
    if d.queue != [] && d.phase != Waiting {
      var m := d.queue[0];
      assert m in d.queue;
      if m.command != Write {
        DrainEnds(SendHead(d));
      }
    }
  }

  lemma DrainOne(d: Device, m: Message)
    requires d.queue == [m] && d.phase != Waiting && (m.command == Connect || m.command == Refuse)
    ensures Drain(d) == d.(queue := [], out := d.out + [m],
      phase := if m.command == Refuse then Disconnected else d.phase)
  {
    assert d.queue[1..] == [];
  }

  lemma AnsweredOk(s: StreamState, data: Bytes, response: Option<Packet>)
    requires InboxOk(s) && OutboxOk(s)
    ensures var t := Answered(s, data, response); InboxOk(t) && OutboxOk(t) && t.dev == s.dev && t.host == s.host
  {
  }

  /** An echo stream answers every packet it emits. */
  lemma EchoAnswers(s: StreamState, data: Bytes, answer: Option<Packet>)
    requires s.wrote == s.got
    ensures
      var packet := Feed(s.assembly, data).1;
      var t := Answered(s, data, if packet.None? then None else Reply(Echo, packet.value, answer));
      t.wrote == t.got
  {
  }

  lemma UpdateStreamOk(d: Device, id: nat, t: StreamState, queue: seq<Message>)
    requires StreamsOk(d) && id in d.streams
    requires InboxOk(t) && OutboxOk(t) && t.dev == id && (d.executors[id] == Echo ==> t.wrote == t.got)
    ensures StreamsOk(d.(streams := d.streams[id := t], queue := queue))
  {
  }

  lemma ReceivedWriteOk(d: Device, m: Message, answer: Option<Packet>)
    requires StreamsOk(d) && m.dev in d.streams
    ensures StreamsOk(ReceivedWrite(d, m, answer))
  {
    var s, response := d.streams[m.dev], Response(d, m, answer);
    var t := Answered(s, m.data, response);
    AnsweredOk(s, m.data, response);
    if d.executors[m.dev] == Echo {
      EchoAnswers(s, m.data, answer);
    }
    UpdateStreamOk(d, m.dev, t, ReceivedWrite(d, m, answer).queue);
  }

  lemma OpenedOk(d: Device, host: nat, tag: Bytes)
    requires StreamsOk(d)
    ensures StreamsOk(Opened(d, host, tag))
  {
  }

  lemma ClosedOk(d: Device, e: Device, id: nat)
    requires StreamsOk(d) && e.streams == d.streams - {id} && e.executors == d.executors - {id} && e.nextId == d.nextId
    ensures StreamsOk(e)
  {
  }

  lemma SameStreamsOk(d: Device, e: Device)
    requires StreamsOk(d) && e.streams == d.streams && e.executors == d.executors && e.nextId == d.nextId
    ensures StreamsOk(e)
  {
  }

  lemma CloseEffectOk(d: Device, m: Message, answer: Option<Packet>)
    requires StreamsOk(d) && d.phase != Disconnected && m.command == Close
    ensures StreamsOk(Effect(d, m, answer))
  {
    var e := Effect(d, m, answer);
    if m.dev in d.streams {
      ClosedOk(d, e, m.dev);
    } else {
      SameStreamsOk(d, e);
    }
  }

  lemma EffectStreamsOk(d: Device, m: Message, answer: Option<Packet>)
    requires StreamsOk(d) && d.phase != Disconnected && m.command != Command.Connect
    ensures StreamsOk(Effect(d, m, answer))
  {
    match m.command
    case Open => OpenedOk(d, m.host, m.data);
    case Write =>
      if m.dev in d.streams {
        ReceivedWriteOk(d, m, answer);
      } else {
        SameStreamsOk(d, Effect(d, m, answer));
      }
    case Close => CloseEffectOk(d, m, answer);
    case _ => SameStreamsOk(d, Effect(d, m, answer));
  }

  lemma EffectQueueOk(d: Device, m: Message, answer: Option<Packet>)
    requires d.phase != Disconnected && m.command != Command.Connect && forall x :: x in d.queue ==> QueuedOk(x)
    ensures forall x :: x in Effect(d, m, answer).queue ==> QueuedOk(x)
  {
  }

  lemma EffectRest(d: Device, m: Message, answer: Option<Packet>)
    requires d.phase != Disconnected && m.command != Command.Connect && 1 <= d.nextId && !d.fault
    ensures var e := Effect(d, m, answer); 1 <= e.nextId && !e.fault && e.phase != Disconnected
  {
  }

  lemma EffectOk(d: Device, m: Message, answer: Option<Packet>)
    requires DeviceOk(d) && Supported(m) && d.phase != Disconnected && m.command != Command.Connect
    ensures var e := Effect(d, m, answer);
      && StreamsOk(e) && (forall x :: x in e.queue ==> QueuedOk(x)) && 1 <= e.nextId && !e.fault
      && e.phase != Disconnected
  {
    EffectStreamsOk(d, m, answer);
    EffectQueueOk(d, m, answer);
    EffectRest(d, m, answer);
  }

  /** Whatever the host sends in whatever order, the device keeps its invariant:
      it drains its queue unless it is Waiting, and no message leaves the queue
      in a state processQueue forbids. */
  lemma HandleOk(d: Device, m: Message, answer: Option<Packet>)
    requires DeviceOk(d) && Supported(m)
    ensures DeviceOk(Handle(d, m, answer))
  {
    if m.command == Command.Connect || d.phase == Disconnected {
      var e := Effect(d, m, answer);
      DrainOne(e, e.queue[0]);
    } else {
      EffectOk(d, m, answer);
      DrainEnds(Effect(d, m, answer));
      DrainFrame(Effect(d, m, answer));
    }
  }

  /** The Ok for a Write precedes everything that the Write triggers: it is
      queued behind what was queued before, and messages leave in queue order. */
  lemma OkBeforeResponse(d: Device, m: Message, answer: Option<Packet>)
    requires d.phase != Disconnected && m.command == Write && m.dev in d.streams
    ensures var e := Handle(d, m, answer);
      && d.out <= e.out
      && e.out + e.queue == d.out + d.queue + [OkMessage(m.host, m.dev)]
           + WriteMessages(d.streams[m.dev].host, d.streams[m.dev].dev, ResponseFragments(Response(d, m, answer)))
  {
    var s, e := d.streams[m.dev], ReceivedWrite(d, m, answer);
    var ok, more := [OkMessage(m.host, m.dev)], WriteMessages(s.host, s.dev, ResponseFragments(Response(d, m, answer)));
    assert Handle(d, m, answer) == Drain(e);
    DrainKeepsOrder(e);
    assert e.out == d.out && e.queue == d.queue + (ok + more);
    Associative(d.out, d.queue, ok + more);
    Associative(d.out + d.queue, ok, more);
  }
}
