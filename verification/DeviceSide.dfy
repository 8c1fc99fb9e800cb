/** The class Server of qdbd/server.cpp, method by method: it drains the queue
    after every message it enqueues, and ends where `DeviceMachine.Handle` does. */
module DeviceSide {
  import opened Protocol
  import opened Octets
  import opened Streams
  import opened StreamObjects
  import D = DeviceMachine

  // ---------- Draining step by step ----------

  lemma {:induction false} FaultStays(d: D.Device)
    ensures d.fault ==> D.Drain(d).fault
    decreases |d.queue|
  {
    if d.queue != [] && d.phase != D.Waiting {
      FaultStays(D.SendHead(d));
    }
  }

  /** `e` with the queue, wire, phase and fault flag of `d`. */
  function Sending(e: D.Device, d: D.Device): D.Device {
    e.(phase := d.phase, queue := d.queue, out := d.out, fault := d.fault)
  }

  /** Draining looks at nothing else. */
  lemma {:induction false} DrainIgnores(d: D.Device, e: D.Device)
    requires e == Sending(e, d)
    ensures D.Drain(e) == Sending(e, D.Drain(d))
    decreases |d.queue|
  {
    if d.queue != [] && d.phase != D.Waiting {
      var s, t := D.SendHead(d), D.SendHead(e);
      assert t == Sending(e, s);
      if d.queue[0].command in {Command.Connect, Close, Ok} {
        DrainIgnores(s, t);
        assert D.Drain(d) == D.Drain(s) && D.Drain(e) == D.Drain(t);
      }
    }
  }

  /** Draining before more is queued makes no difference. */
  lemma {:induction false} DrainTwice(d: D.Device, more: seq<Message>)
    requires forall m :: m in d.queue ==> D.QueuedOk(m)
    ensures D.Drain(D.Queued(D.Drain(d), more)) == D.Drain(D.Queued(d, more))
    decreases |d.queue|
  {
    if d.queue != [] && d.phase != D.Waiting {
      var m, q := d.queue[0], D.Queued(d, more);
      assert m in d.queue;
      assert q.queue[0] == m && q.queue[1..] == d.queue[1..] + more;
      assert D.SendHead(q) == D.Queued(D.SendHead(d), more);
      if m.command != Write {
        DrainTwice(D.SendHead(d), more);
      }
    }
  }

  /** What draining needs of a queue of answers. */
  ghost predicate Answers(d: D.Device) {
    d.phase != D.Disconnected && !d.fault && forall m :: m in d.queue ==> D.QueuedOk(m)
  }

  lemma AnswersStay(d: D.Device, more: seq<Message>)
    requires Answers(d) && forall m :: m in more ==> D.QueuedOk(m)
    ensures Answers(D.Queued(d, more)) && Answers(D.Drain(D.Queued(d, more)))
  {
    D.DrainEnds(D.Queued(d, more));
  }

  /** The history of a stream that a packet is written to. */
  function Noted(d: D.Device, id: nat, packet: Packet): D.Device
    requires id in d.streams
  {
    var s := d.streams[id];
    d.(streams := d.streams[id := Written(s, packet).(frags := s.frags + Fragments(Wrap(packet)))])
  }

  /** The device after a packet has been written to its stream `id`. */
  function WroteTo(d: D.Device, id: nat, packet: Packet): D.Device
    requires id in d.streams
  {
    D.Drain(D.Queued(Noted(d, id, packet),
      WriteMessages(d.streams[id].host, d.streams[id].dev, Fragments(Wrap(packet)))))
  }

  /** The device after it has acknowledged a Write and its stream has taken it. */
  function Took(d: D.Device, m: Message): D.Device
    requires m.dev in d.streams
  {
    D.Drain(D.Queued(d, [OkMessage(m.host, m.dev)])).(
      streams := d.streams[m.dev := Receive(d.streams[m.dev], m.data).0])
  }

  /** The Ok first, then the fragments of the response. */
  lemma WriteInSteps(d: D.Device, m: Message, s: StreamState, writes: seq<Message>)
    requires Answers(d) && m.dev in d.streams
    ensures
      var ok := [OkMessage(m.host, m.dev)];
      var stepwise := D.Drain(D.Queued(d, ok)).(streams := d.streams[m.dev := s]);
      && D.Drain(D.Queued(stepwise, writes)) == D.Drain(D.Queued(d, ok + writes).(streams := d.streams[m.dev := s]))
      && Answers(stepwise) && D.Drained(stepwise)
  {
    var ok := [OkMessage(m.host, m.dev)];
    var e := D.Queued(d, ok).(streams := d.streams[m.dev := s]);
    AnswersStay(d, ok);
    D.DrainEnds(D.Queued(d, ok));
    DrainIgnores(D.Queued(d, ok), e);
    D.DrainFrame(D.Queued(d, ok));
    DrainTwice(e, writes);
    assert e.queue + writes == d.queue + (ok + writes);
  }

  lemma ReceivedInSteps(d: D.Device, m: Message, answer: Option<Packet>)
    requires Answers(d) && m.dev in d.streams
    ensures Answers(Took(d, m)) && D.Drained(Took(d, m)) && m.dev in Took(d, m).streams
    ensures var response := D.Response(d, m, answer);
      D.Drain(D.ReceivedWrite(d, m, answer))
        == if response.None? then Took(d, m) else WroteTo(Took(d, m), m.dev, response.value)
  {
    var s, e, response := d.streams[m.dev], Took(d, m), D.Response(d, m, answer);
    var t, writes := D.Answered(s, m.data, response), WriteMessages(s.host, s.dev, D.ResponseFragments(response));
    WriteInSteps(d, m, e.streams[m.dev], []);
    WriteInSteps(d, m, t, writes);
    if response.None? {
      assert D.Queued(e, []) == e by { assert e.queue + [] == e.queue; }
    } else {
      assert e.streams[m.dev := t] == d.streams[m.dev := t];
    }
  }

  lemma FragmentInSteps(d: D.Device, host: nat, dev: nat, fragment: Bytes, rest: seq<Bytes>)
    requires Answers(d)
    ensures
      var m := Message(Write, host, dev, fragment);
      var e := D.Drain(D.Queued(d, [m]));
      && Answers(e) && D.Drained(e)
      && D.Drain(D.Queued(e, WriteMessages(host, dev, rest)))
           == D.Drain(D.Queued(d, WriteMessages(host, dev, [fragment] + rest)))
  {
    var m := Message(Write, host, dev, fragment);
    AnswersStay(d, [m]);
    D.DrainEnds(D.Queued(d, [m]));
    DrainTwice(D.Queued(d, [m]), WriteMessages(host, dev, rest));
    assert ([fragment] + rest)[1..] == rest;
    Associative(d.queue, [m], WriteMessages(host, dev, rest));
  }

  /** Handling a message leaves nothing that could be sent at once. */
  lemma HandleInSteps(d: D.Device, m: Message, answer: Option<Packet>)
    requires D.DeviceOk(d) && D.Supported(m)
    ensures var e := D.Handle(d, m, answer); D.Drain(e) == e && !e.fault
  {
    D.HandleOk(d, m, answer);
  }

  class Server {
    var state: D.Phase
    var outgoingMessages: seq<Message>
    var streams: map<nat, Stream>
    var executors: map<nat, D.Executor>
    var nextStreamId: nat
    /** What the transport has sent and the host has not yet received. */
    var wire: seq<Message>
    ghost var minted: map<nat, nat>
    ghost var released: nat

    ghost function Table(): map<nat, StreamState>
      reads this`streams, streams.Values
    {
      map id | id in streams :: streams[id].View()
    }

    ghost function View(): D.Device
      reads this, streams.Values
    {
      D.Device(state, outgoingMessages, Table(), executors, nextStreamId, wire, minted, released, false)
    }

    /** Different ids have different Stream objects. */
    ghost predicate Separate()
      reads this
    {
      forall i, k :: i in streams && k in streams && i != k ==> streams[i] != streams[k]
    }

    ghost predicate Valid()
      reads this, streams.Values
    {
      Separate() && D.DeviceOk(View())
    }

    constructor ()
      ensures Valid() && View() == D.INITIAL
    {
      state, outgoingMessages, streams, executors := D.Disconnected, [], map[], map[];
      nextStreamId, wire, minted, released := 1, [], map[], 0;
    }

    /** The assertions of processQueue are what it demands of its callers. */
    method ProcessQueue()
      requires !D.Drain(View()).fault
      modifies this`state, this`outgoingMessages, this`wire
      ensures View() == D.Drain(old(View()))
      decreases |outgoingMessages|
    {
      if outgoingMessages == [] || state == D.Waiting {
        return;
      }
      var message := outgoingMessages[0];
      FaultStays(D.SendHead(View()));
      outgoingMessages := outgoingMessages[1..];
      wire := wire + [message];
      assert Table() == old(Table());
      match message.command {
        case Refuse =>
          state := D.Disconnected;
        case Write =>
          assert state == D.Connected;
          state := D.Waiting;
        case Connect =>
          if outgoingMessages != [] { ProcessQueue(); }
        case Close =>
          if outgoingMessages != [] { ProcessQueue(); }
        case Ok =>
          if outgoingMessages != [] { ProcessQueue(); }
        case Open => assert false;
        case Invalid => assert false;
      }
    }

    method EnqueueMessage(message: Message)
      requires !D.Drain(D.Queued(View(), [message])).fault
      modifies this`state, this`outgoingMessages, this`wire
      ensures View() == D.Drain(D.Queued(old(View()), [message]))
    {
      outgoingMessages := outgoingMessages + [message];
      assert Table() == old(Table());
      ProcessQueue();
    }

    method ResetServer()
      modifies this`outgoingMessages, this`executors, this`streams
      ensures streams == map[] && View() == D.Cleared(old(View()))
    {
      outgoingMessages := [];
      executors := map[];
      streams := map[];
      assert Table() == map[];
    }

    method Refuse(reason: RefuseReason)
      modifies this
      ensures streams == map[] && View() == D.Drain(D.Refused(old(View()), reason))
    {
      ghost var e := D.Refused(View(), reason);
      ResetServer();
      state := D.Disconnected;
      assert Table() == map[];
      assert e.queue == [RefuseMessage(reason)];
      D.DrainOne(e, RefuseMessage(reason));
      EnqueueMessage(RefuseMessage(reason));
    }

    method CheckVersion(payload: Bytes) returns (ok: bool)
      ensures ok <==> |payload| >= 4 && payload[..4] == BigEndian(VERSION)
      ensures ok <==> VersionMatches(payload)
    {
      ok := |payload| >= 4 && ReadUint32(payload) == VERSION;
    }

    method HandleConnect(payload: Bytes)
      modifies this
      ensures streams == map[] && View() == D.Drain(D.Accepted(old(View()), payload))
      ensures wire == old(wire) + [if StartsWith(payload, [0, 0, 0, 1]) then CONNECT else UNKNOWN_VERSION]
    {
      HandshakeMessages();
      VersionIsOne(payload);
      ghost var e := D.Accepted(View(), payload);
      var ok := CheckVersion(payload);
      if !ok {
        assert e.queue == [RefuseMessage(UnknownVersion)];
        D.DrainOne(e, RefuseMessage(UnknownVersion));
        Refuse(UnknownVersion);
        return;
      }
      ResetServer();
      state := D.Connected;
      released := 0;
      assert Table() == map[];
      assert e.queue == [ConnectMessage()];
      D.DrainOne(e, ConnectMessage());
      EnqueueMessage(ConnectMessage());
    }

    method HandleOpen(hostId: nat, tag: Bytes)
      requires Separate() && Answers(View())
      modifies this
      ensures Separate() && fresh(streams.Values - old(streams.Values))
      ensures View() == D.Drain(D.Opened(old(View()), hostId, tag))
    {
      ghost var d, ok := View(), OkMessage(hostId, nextStreamId);
      AnswersStay(d, [ok]);
      DrainIgnores(D.Queued(d, [ok]), D.Opened(d, hostId, tag));
      D.DrainFrame(D.Queued(d, [ok]));
      var deviceId := nextStreamId;
      EnqueueMessage(OkMessage(hostId, deviceId));
      AddStream(hostId, deviceId, tag);
    }

    method AddStream(hostId: nat, deviceId: nat, tag: Bytes)
      requires Separate()
      modifies this`streams, this`executors, this`nextStreamId, this`minted
      ensures Separate() && fresh(streams.Values - old(streams.Values))
      ensures View() == old(View()).(
        streams := old(Table())[deviceId := NewStream(hostId, deviceId)],
        executors := old(executors)[deviceId := D.ExecutorFor(tag)],
        minted := old(minted)[deviceId := hostId],
        nextId := old(nextStreamId) + 1)
    {
      var stream := new Stream(hostId, deviceId);
      streams := streams[deviceId := stream];
      executors := executors[deviceId := D.ExecutorFor(tag)];
      nextStreamId := nextStreamId + 1;
      minted := minted[deviceId := hostId];
      assert Table() == old(Table())[deviceId := NewStream(hostId, deviceId)];
    }

    method CloseStream(id: nat)
      requires Separate()
      modifies this`streams, this`executors, this`outgoingMessages
      ensures Separate() && streams == old(streams) - {id}
      ensures View() == D.CloseStream(old(View()), id)
    {
      if id !in streams {
        return;
      }
      executors := executors - {id};
      streams := streams - {id};
      outgoingMessages := WithoutDev(outgoingMessages, id);
      assert Table() == old(Table()) - {id};
    }

    /** `answer` is what an executor other than echo writes back, if it is asked. */
    method HandleWrite(message: Message, answer: Option<Packet>)
      requires Separate() && executors.Keys == streams.Keys && Answers(View()) && message.command == Write
      modifies this, streams.Values
      ensures Separate() && streams == old(streams)
      ensures View() == D.Drain(D.ReceivedWrite(old(View()), message, answer))
      ensures message.dev !in streams ==>
        wire + outgoingMessages == old(wire + outgoingMessages) + [Message(Close, message.host, message.dev, [])]
    {
      ghost var d := View();
      if message.dev !in streams {
        D.DrainKeepsOrder(D.ReceivedWrite(d, message, answer));
        Associative(d.out, d.queue, [CloseMessage(message.host, message.dev)]);
        AnswersStay(d, [CloseMessage(message.host, message.dev)]);
        EnqueueMessage(CloseMessage(message.host, message.dev));
      } else {
        ReceivedInSteps(d, message, answer);
        TakeAndAnswer(message, answer);
      }
    }

    /** A Write to a stream that is there. */
    method TakeAndAnswer(message: Message, answer: Option<Packet>)
      requires Separate() && Answers(View()) && message.dev in streams && message.dev in executors
      modifies this`state, this`outgoingMessages, this`wire, streams[message.dev]
      ensures streams == old(streams)
      ensures var d := old(View()); var response := D.Response(d, message, answer);
        View() == if response.None? then Took(d, message) else WroteTo(Took(d, message), message.dev, response.value)
    {
      ghost var d := View();
      ReceivedInSteps(d, message, answer);
      var packet := TakeWrite(message);
      if packet.Some? {
        var reply := D.Reply(executors[message.dev], packet.value, answer);
        if reply.Some? {
          WritePacket(message.dev, reply.value, Took(d, message));
        }
      }
    }

    /** The Write is acknowledged, and its stream takes it. */
    method TakeWrite(message: Message) returns (packet: Option<Packet>)
      requires Separate() && Answers(View()) && message.dev in streams
      modifies this`state, this`outgoingMessages, this`wire, streams[message.dev]
      ensures streams == old(streams) && executors == old(executors)
      ensures View() == Took(old(View()), message)
      ensures packet == Feed(old(Table())[message.dev].assembly, message.data).1
    {
      ghost var d := View();
      AnswersStay(d, [OkMessage(message.host, message.dev)]);
      D.DrainFrame(D.Queued(d, [OkMessage(message.host, message.dev)]));
      EnqueueMessage(OkMessage(message.host, message.dev));
      packet := Receive(message);
    }

    /** Stream::receiveMessage on the stream of `message`. */
    method Receive(message: Message) returns (packet: Option<Packet>)
      requires Separate() && message.dev in streams
      modifies streams[message.dev]
      ensures streams == old(streams)
      ensures var r := Streams.Receive(old(Table())[message.dev], message.data);
        packet == r.1 && View() == old(View()).(streams := old(Table())[message.dev := r.0])
    {
      packet := streams[message.dev].ReceiveMessage(message);
      assert Table() == old(Table())[message.dev := Streams.Receive(old(Table())[message.dev], message.data).0];
    }

    ghost method Note(id: nat, packet: Packet)
      requires Separate() && id in streams
      modifies {streams[id]}`wrote, {streams[id]}`frags
      ensures View() == Noted(old(View()), id, packet)
    {
      var stream := streams[id];
      stream.wrote := stream.wrote + [packet];
      stream.frags := stream.frags + Fragments(Wrap(packet));
      assert Table() == old(Table())[id := stream.View()];
    }

    /** Stream::write on the stream `id` of this connection. */
    method WritePacket(id: nat, packet: Packet, ghost d: D.Device)
      requires Separate() && View() == d && Answers(d) && D.Drained(d) && id in streams
      modifies this`state, this`outgoingMessages, this`wire, streams[id]
      ensures streams == old(streams)
      ensures View() == WroteTo(d, id, packet)
    {
      assert Table()[id].host == streams[id].hostId && Table()[id].dev == streams[id].deviceId;
      Note(id, packet);
      assert streams == old(streams) && View() == Noted(d, id, packet);
      var data := StreamObjects.WrapPacket(packet);
      WriteFragments(id, data, Noted(d, id, packet));
    }

    /** The loop of Stream::write. */
    method WriteFragments(id: nat, bytes: Bytes, ghost d: D.Device)
      requires View() == d && Answers(d) && D.Drained(d) && id in streams
      modifies this`state, this`outgoingMessages, this`wire
      ensures View() == D.Drain(D.Queued(d,
        WriteMessages(streams[id].hostId, streams[id].deviceId, Fragments(bytes))))
    {
      var stream, data := streams[id], bytes;
      ghost var host, dev := stream.hostId, stream.deviceId;
      while data != []
        invariant Answers(View()) && D.Drained(View())
        invariant D.Drain(D.Queued(View(), WriteMessages(host, dev, Fragments(data))))
               == D.Drain(D.Queued(d, WriteMessages(host, dev, Fragments(bytes))))
        decreases |data|
      {
        var splitSize := if |data| < MAX_PAYLOAD then |data| else MAX_PAYLOAD;
        FragmentInSteps(View(), host, dev, data[..splitSize], Fragments(data[splitSize..]));
        EnqueueMessage(Message(Write, stream.hostId, stream.deviceId, data[..splitSize]));
        data := data[splitSize..];
      }
      assert D.Queued(View(), []) == View() by { assert outgoingMessages + [] == outgoingMessages; }
    }

    /** What the server does with a message once it has been received; the cases
        of the outer switch. `answer` is as in HandleWrite. */
    method HandleMessage(message: Message, answer: Option<Packet>)
      requires Valid() && D.Supported(message)
      modifies this, streams.Values
      ensures View() == D.Handle(old(View()), message, answer)
      ensures Valid() && fresh(streams.Values - old(streams.Values))
    {
      ghost var d := View();
      HandleInSteps(d, message, answer);
      match state {
        case Disconnected =>
          if message.command != Command.Connect {
            Refuse(NotConnected);
          } else {
            HandleConnect(message.data);
          }
        case Connected => DispatchConnected(message, answer);
        case Waiting => DispatchConnected(message, answer);
      }
      ProcessQueue();
      assert D.DeviceOk(View()) by { D.HandleOk(d, message, answer); }
    }

    method HandleClose(id: nat)
      requires Separate() && state != D.Disconnected
      modifies this`state, this`released, this`streams, this`executors, this`outgoingMessages
      ensures Separate() && streams == old(streams) - {id}
      ensures var d := old(View());
        View() == D.CloseStream(
          d.(phase := D.Connected, released := if d.phase == D.Waiting then d.released + 1 else d.released), id)
    {
      ghost var d := View();
      if state == D.Waiting {
        state := D.Connected;
        released := released + 1;
      }
      assert Table() == d.streams;
      CloseStream(id);
    }

    method HandleOk()
      requires state != D.Disconnected
      modifies this`state
      ensures View() == old(View()).(phase := D.Connected)
    {
      if state == D.Waiting {
        state := D.Connected;
      }
      assert Table() == old(Table());
    }

    /** The cases Connected and Waiting, which differ in their handling of Close
        and Ok; the queue may still have to be drained. */
    method DispatchConnected(message: Message, answer: Option<Packet>)
      requires Separate() && executors.Keys == streams.Keys && Answers(View()) && D.Supported(message)
      modifies this, streams.Values
      ensures Separate() && fresh(streams.Values - old(streams.Values))
      ensures var e := D.Effect(old(View()), message, answer); View() == e || View() == D.Drain(e)
    {
      ghost var e := D.Effect(View(), message, answer);
      match message.command {
        case Connect =>
          HandleConnect(message.data);
          assert View() == D.Drain(e);
        case Open =>
          HandleOpen(message.host, message.data);
          assert View() == D.Drain(e);
        case Write =>
          HandleWrite(message, answer);
          assert View() == D.Drain(e);
        case Close =>
          HandleClose(message.dev);
          assert View() == e;
        case Ok =>
          HandleOk();
          assert View() == e;
        case Refuse => assert false;
        case Invalid => assert false;
      }
    }
  }
}
