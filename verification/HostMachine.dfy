/** The host side of a QDB connection as a function of its state:
    qdb/server/connection.cpp. Transport `send` succeeds and appends to `out`. */
module HostMachine {
  import opened Protocol
  import opened Streams

  datatype Phase = Disconnected | WaitingForConnection | Connected | Waiting

  /** `out` is what has been sent and not yet been received by the device.
      History: `log` is everything ever sent, `fault` records that an assertion
      of processQueue has failed. */
  datatype Host = Host(
    phase: Phase, queue: seq<Message>, requests: set<nat>, streams: map<nat, StreamState>,
    nextId: nat, out: seq<Message>, log: seq<Message>, fault: bool)

  const INITIAL := Host(Disconnected, [], {}, map[], 1, [], [], false)

  function Send(h: Host, m: Message): Host {
    h.(out := h.out + [m], log := h.log + [m])
  }

  /** What processQueue asserts about a message that leaves the queue. */
  predicate DispatchAllowed(phase: Phase, command: Command) {
    match command
    case Connect => phase == Disconnected
    case Open => phase == Connected
    case Write => phase == Connected
    case Close => phase == Connected
    case _ => false
  }

  predicate MaySend(h: Host) {
    h.queue != [] && (h.phase == Disconnected || h.phase == Connected)
  }

  function CloseStream(h: Host, id: nat): Host {
    if id !in h.streams then h
    else h.(streams := h.streams - {id}, queue := WithoutHost(h.queue, id))
  }

  function ProcessQueue(h: Host): Host {
    if !MaySend(h) then h
    else
      var m := h.queue[0];
      var sent := Send(h, m).(queue := h.queue[1..], fault := h.fault || !DispatchAllowed(h.phase, m.command));
      match m.command
      case Connect => sent.(phase := WaitingForConnection)
      case Open => sent.(phase := Waiting)
      case Write => sent.(phase := Waiting)
      case Close => CloseStream(sent, m.host)
      case _ => sent
  }

  function Enqueue(h: Host, m: Message): Host {
    ProcessQueue(h.(queue := h.queue + [m]))
  }

  function Connect(h: Host): Host {
    Enqueue(h, ConnectMessage())
  }

  function Cleared(h: Host): Host {
    h.(queue := [], phase := Disconnected, requests := {}, streams := map[])
  }

  function Reset(h: Host, reconnect: bool): Host {
    if reconnect then Connect(Cleared(h)) else Cleared(h)
  }

  function HandleRefuse(h: Host, data: Bytes): Host {
    Reset(h, ToRefuseReason(ReadUint32(data)) == NotConnected)
  }

  function HandleWrite(h: Host, m: Message): Host {
    if m.host !in h.streams then Enqueue(h, CloseMessage(m.host, m.dev))
    else
      Send(h, OkMessage(m.host, m.dev)).(
        streams := h.streams[m.host := Receive(h.streams[m.host], m.data).0])
  }

  function FinishCreateStream(h: Host, hostId: nat, devId: nat): Host {
    h.(streams := h.streams[hostId := NewStream(hostId, devId)], requests := h.requests - {hostId})
  }

  /** The switch of handleMessage. */
  function Dispatch(h: Host, m: Message): Host {
    match h.phase
    case Disconnected => Reset(h, true)
    case WaitingForConnection =>
      if m.command == Command.Connect then
        h.(phase := if VersionMatches(m.data) then Connected else Disconnected)
      else if m.command == Refuse then HandleRefuse(h, m.data)
      else Reset(h, true)
    case _ =>
      match m.command
      case Connect => Reset(h, true)
      case Refuse => HandleRefuse(h, m.data)
      case Write => HandleWrite(h, m)
      case Close => CloseStream(h, m.host)
      case Ok =>
        if h.phase == Connected then h
        else if m.host in h.requests then FinishCreateStream(h.(phase := Connected), m.host, m.dev)
        else h.(phase := Connected)
      case _ => h
  }

  function Handle(h: Host, m: Message): Host {
    if m.command == Invalid then
      if h.phase == Disconnected then h else Reset(h, false)
    else ProcessQueue(Dispatch(h, m))
  }

  function Requesting(h: Host, tag: Bytes): Host {
    h.(nextId := h.nextId + 1, requests := h.requests + {h.nextId},
       queue := h.queue + [Message(Open, h.nextId, 0, tag)])
  }

  function CreateStream(h: Host, tag: Bytes): Host {
    ProcessQueue(Requesting(h, tag))
  }

  function Queueing(h: Host, id: nat, fragment: Bytes): Host
    requires id in h.streams
  {
    var s := h.streams[id];
    h.(streams := h.streams[id := s.(frags := s.frags + [fragment])],
       queue := h.queue + [Message(Write, s.host, s.dev, fragment)])
  }

  /** The loop of Stream::write; it ends early if the stream has been closed. */
  function EnqueueFragments(h: Host, id: nat, fragments: seq<Bytes>): Host
    decreases fragments
  {
    if fragments == [] || id !in h.streams then h
    else EnqueueFragments(ProcessQueue(Queueing(h, id, fragments[0])), id, fragments[1..])
  }

  /** Whenever the loop of Stream::write uses the stream, the stream is open. */
  predicate StaysOpen(h: Host, id: nat, fragments: seq<Bytes>)
    decreases fragments
  {
    fragments == []
    || (id in h.streams && StaysOpen(ProcessQueue(Queueing(h, id, fragments[0])), id, fragments[1..]))
  }

  function Note(h: Host, id: nat, packet: Packet): Host {
    if id !in h.streams then h
    else h.(streams := h.streams[id := Written(h.streams[id], packet)])
  }

  function WritePacket(h: Host, id: nat, packet: Packet): Host {
    Note(EnqueueFragments(h, id, Fragments(Wrap(packet))), id, packet)
  }

  function RequestClose(h: Host, id: nat): Host
    requires id in h.streams
  {
    Enqueue(h, CloseMessage(h.streams[id].host, h.streams[id].dev))
  }

  /** The Close messages of the streams in `order`. */
  function Closes(streams: map<nat, StreamState>, order: seq<nat>): seq<Message>
    requires forall id :: id in order ==> id in streams
  {
    if order == [] then []
    else [CloseMessage(streams[order[0]].host, streams[order[0]].dev)] + Closes(streams, order[1..])
  }

  /** `order` lists the open streams, each of them once. */
  ghost predicate IsOrder(h: Host, order: seq<nat>) {
    && (forall id :: id in order <==> id in h.streams)
    && Distinct(order)
  }

  /** close(), when the stream table yields its streams in the order `order`. */
  function CloseAll(h: Host, order: seq<nat>): Host
    requires forall id :: id in order ==> id in h.streams
  {
    if h.phase == Disconnected then h
    else if h.phase == WaitingForConnection then h.(phase := Disconnected)
    else
      var closes := Closes(h.streams, order);
      Cleared(h).(out := h.out + closes, log := h.log + closes)
  }

  // ---------- What holds of the host whatever the device sends ----------

  /** Before the handshake is complete only requests can be waiting. */
  ghost predicate OnlyRequests(h: Host) {
    && h.streams == map[]
    && (forall m :: m in h.queue ==> m.command == Open)
    && h.requests == OpenIds(h.queue)
    && DistinctOpens(h.queue)
  }

  ghost predicate QueuedOk(h: Host, m: Message) {
    match m.command
    case Open => m.host < h.nextId
    case Write => m.host in h.streams && h.streams[m.host].dev == m.dev
    case Close => true
    case _ => false
  }

  ghost predicate HostOk(h: Host) {
    && (forall m :: m in h.queue ==> QueuedOk(h, m))
    && (forall r :: r in h.requests ==> 1 <= r < h.nextId)
    && (forall id :: id in h.streams ==> 1 <= id < h.nextId && h.streams[id].host == id && id !in h.requests)
    && (h.phase == Disconnected || h.phase == WaitingForConnection ==> OnlyRequests(h))
    && 1 <= h.nextId
    && !h.fault
  }

  /** No message that handleMessage rejects with qFatal, and version 1. */
  predicate Supported(m: Message) {
    m.command != Open && (m.command == Command.Connect ==> VersionMatches(m.data))
  }

  /** The one message that trips an assertion of processQueue: a Connect reply of
      another version that finds requests already queued. */
  predicate TripsAssertion(h: Host, m: Message) {
    h.phase == WaitingForConnection && m.command == Command.Connect && !VersionMatches(m.data) && h.queue != []
  }

  lemma ProcessQueueOk(h: Host)
    requires HostOk(h) && h.phase != Disconnected
    ensures HostOk(ProcessQueue(h))
  {
    if MaySend(h) {
      assert h.queue[0] in h.queue;
      assert QueuedOk(h, h.queue[0]);
      assert forall m :: m in h.queue[1..] ==> m in h.queue;
    }
  }

  lemma HeadAllowed(h: Host)
    requires HostOk(h) && h.phase != Disconnected
    ensures MaySend(h) ==> DispatchAllowed(h.phase, h.queue[0].command)
  {
    if MaySend(h) {
      assert h.queue[0] in h.queue && QueuedOk(h, h.queue[0]);
    }
  }

  lemma EnqueueOk(h: Host, m: Message)
    requires HostOk(h) && h.phase != Disconnected && h.phase != WaitingForConnection
    requires QueuedOk(h, m)
    ensures HostOk(Enqueue(h, m))
  {
    ProcessQueueOk(h.(queue := h.queue + [m]));
  }

  /** connect() sends at once, and reset leaves nothing behind. */
  lemma ResetOk(h: Host, reconnect: bool)
    requires 1 <= h.nextId && !h.fault
    ensures HostOk(Reset(h, reconnect))
    ensures Reset(h, reconnect).queue == []
    ensures Reset(h, reconnect).requests == {} && Reset(h, reconnect).streams == map[]
    ensures Reset(h, reconnect).phase == if reconnect then WaitingForConnection else Disconnected
    ensures Reset(h, reconnect).out == h.out + if reconnect then [ConnectMessage()] else []
    ensures Reset(h, reconnect).log == h.log + if reconnect then [ConnectMessage()] else []
    ensures Reset(h, reconnect).nextId == h.nextId
  {
    var c := Cleared(h);
    if reconnect {
      var q := c.(queue := c.queue + [ConnectMessage()]);
      assert q.queue[0] == ConnectMessage() && q.queue[1..] == [];
    }
  }

  lemma CloseStreamOk(h: Host, id: nat)
    requires HostOk(h) && (h.phase == Connected || h.phase == Waiting)
    ensures HostOk(CloseStream(h, id))
  {
  }

  lemma HandleWriteOk(h: Host, m: Message)
    requires HostOk(h) && (h.phase == Connected || h.phase == Waiting)
    requires m.command == Write
    ensures HostOk(HandleWrite(h, m)) && HandleWrite(h, m).phase != Disconnected
  {
    if m.host !in h.streams {
      EnqueueOk(h, CloseMessage(m.host, m.dev));
    }
  }

  lemma DispatchOk(h: Host, m: Message)
    requires HostOk(h) && m.command != Open && m.command != Invalid && !TripsAssertion(h, m)
    ensures HostOk(Dispatch(h, m))
    ensures Dispatch(h, m).phase == Disconnected ==> Dispatch(h, m).queue == []
  {
    ResetOk(h, true);
    ResetOk(h, false);
    if h.phase == Connected || h.phase == Waiting {
      match m.command
      case Write => HandleWriteOk(h, m);
      case Close => CloseStreamOk(h, m.host);
      case _ =>
    }
  }

  lemma DispatchInSession(h: Host, m: Message)
    requires h.phase == Connected || h.phase == Waiting
    ensures m.command == Write ==> Dispatch(h, m) == HandleWrite(h, m)
    ensures m.command == Close ==> Dispatch(h, m) == CloseStream(h, m.host)
  {
  }

  /** Whatever the device sends in whatever order, the host keeps its invariant;
      in particular no message leaves the queue in a state processQueue forbids. */
  lemma HandleOk(h: Host, m: Message)
    requires HostOk(h) && m.command != Open && !TripsAssertion(h, m)
    ensures HostOk(Handle(h, m))
  {
    if m.command == Invalid {
      ResetOk(h, false);
    } else {
      DispatchOk(h, m);
      if Dispatch(h, m).phase != Disconnected {
        ProcessQueueOk(Dispatch(h, m));
      }
    }
  }

  /** Exactly that message trips an assertion. */
  lemma HandleFaultsIff(h: Host, m: Message)
    requires HostOk(h) && m.command != Open
    ensures Handle(h, m).fault <==> TripsAssertion(h, m)
  {
    if TripsAssertion(h, m) {
      assert h.queue[0] in h.queue;
    } else {
      HandleOk(h, m);
    }
  }

  /** It is reached: createStream while the Connect reply is awaited, and then a
      reply of version 2. */
  lemma OtherVersionFaults()
    ensures Handle(CreateStream(Connect(INITIAL), []), Message(Command.Connect, 0, 0, BigEndian(2))).fault
  {
    var w := Connect(INITIAL);
    assert INITIAL.queue + [ConnectMessage()] == [ConnectMessage()];
    assert w.phase == WaitingForConnection && w.queue == [];
    var c := CreateStream(w, []);
    assert c.queue == [Message(Open, 1, 0, [])];
    var m := Message(Command.Connect, 0, 0, BigEndian(2));
    ReadBigEndian(2, []);
    assert BigEndian(2) + [] == BigEndian(2);
    assert TripsAssertion(c, m);
    assert Dispatch(c, m).phase == Disconnected;
  }

  /** connect() trips the assertion exactly when requests are still queued, as
      close() leaves them when it is called before the handshake is complete. */
  lemma ConnectFaultsIff(h: Host)
    requires HostOk(h) && h.phase == Disconnected
    ensures Connect(h).fault <==> h.queue != []
  {
    var q := h.(queue := h.queue + [ConnectMessage()]);
    if h.queue != [] {
      assert q.queue[0] == h.queue[0] && h.queue[0] in h.queue;
    } else {
      assert q.queue[0] == ConnectMessage();
    }
  }

  /** A run that reaches the failing connect(): createStream and close() while
      the Connect reply is still awaited, then connect(). */
  lemma ConnectAfterCloseFaults()
    ensures Connect(CloseAll(CreateStream(Connect(INITIAL), []), [])).fault
  {
    var w := Connect(INITIAL);
    assert INITIAL.queue + [ConnectMessage()] == [ConnectMessage()];
    assert w.phase == WaitingForConnection && w.queue == [];
    var c := CreateStream(w, []);
    assert c.queue == [Message(Open, 1, 0, [])];
    var d := CloseAll(c, []);
    assert (d.queue + [ConnectMessage()])[0] == c.queue[0];
  }

  lemma ConnectOk(h: Host)
    requires HostOk(h) && h.phase == Disconnected && h.queue == []
    ensures HostOk(Connect(h))
  {
    var q := h.(queue := h.queue + [ConnectMessage()]);
    assert q.queue[0] == ConnectMessage() && q.queue[1..] == [];
  }

  lemma OnlyRequestsGrow(h: Host, tag: Bytes)
    requires HostOk(h) && OnlyRequests(h)
    ensures OnlyRequests(Requesting(h, tag))
  {
    OpenIdsAppend(h.queue, [Message(Open, h.nextId, 0, tag)]);
    DistinctOpensAppend(h.queue, [Message(Open, h.nextId, 0, tag)]);
  }

  lemma RequestingOk(h: Host, tag: Bytes)
    requires HostOk(h)
    ensures HostOk(Requesting(h, tag))
  {
    if h.phase == WaitingForConnection || h.phase == Disconnected {
      OnlyRequestsGrow(h, tag);
    }
  }

  lemma CreateStreamOk(h: Host, tag: Bytes)
    requires HostOk(h) && h.phase != Disconnected
    ensures HostOk(CreateStream(h, tag))
  {
    RequestingOk(h, tag);
    ProcessQueueOk(Requesting(h, tag));
  }

  lemma CanCreateStream(h: Host, tag: Bytes)
    requires HostOk(h) && h.phase != Disconnected
    ensures MaySend(Requesting(h, tag)) ==> DispatchAllowed(h.phase, Requesting(h, tag).queue[0].command)
    ensures HostOk(CreateStream(h, tag))
  {
    RequestingOk(h, tag);
    HeadAllowed(Requesting(h, tag));
    CreateStreamOk(h, tag);
  }

  lemma QueueingOk(h: Host, id: nat, fragment: Bytes)
    requires HostOk(h) && id in h.streams
    ensures HostOk(Queueing(h, id, fragment))
  {
  }

  lemma QueueingCloseOk(h: Host, m: Message)
    requires HostOk(h) && m.command == Close && (h.phase == Connected || h.phase == Waiting)
    ensures HostOk(h.(queue := h.queue + [m]))
  {
  }

  lemma {:induction false} EnqueueFragmentsOk(h: Host, id: nat, fragments: seq<Bytes>)
    requires HostOk(h)
    ensures HostOk(EnqueueFragments(h, id, fragments))
    decreases fragments
  {
    if fragments != [] && id in h.streams {
      var q := Queueing(h, id, fragments[0]);
      QueueingOk(h, id, fragments[0]);
      ProcessQueueOk(q);
      EnqueueFragmentsOk(ProcessQueue(q), id, fragments[1..]);
    }
  }

  lemma WritePacketOk(h: Host, id: nat, packet: Packet)
    requires HostOk(h)
    ensures HostOk(WritePacket(h, id, packet))
  {
    EnqueueFragmentsOk(h, id, Fragments(Wrap(packet)));
  }

  lemma RequestCloseOk(h: Host, id: nat)
    requires HostOk(h) && id in h.streams
    ensures HostOk(RequestClose(h, id))
  {
    EnqueueOk(h, CloseMessage(h.streams[id].host, h.streams[id].dev));
  }

  lemma CloseAllOk(h: Host, order: seq<nat>)
    requires HostOk(h) && IsOrder(h, order)
    ensures HostOk(CloseAll(h, order))
  {
  }

  /** close() sends exactly one Close for each open stream, whatever the order. */
  lemma {:induction false} ClosesExactly(streams: map<nat, StreamState>, order: seq<nat>)
    requires forall id :: id in order ==> id in streams && streams[id].host == id
    requires Distinct(order)
    ensures var closes := Closes(streams, order);
      && |closes| == |order|
      && (forall i :: 0 <= i < |order| ==> closes[i] == CloseMessage(order[i], streams[order[i]].dev))
      && Distinct(closes)
    decreases order
  {
    if order != [] {
      assert forall i :: 0 <= i < |order| - 1 ==> order[1..][i] == order[i + 1];
      ClosesExactly(streams, order[1..]);
      var closes := Closes(streams, order);
      forall i | 0 <= i < |order|
        ensures closes[i] == CloseMessage(order[i], streams[order[i]].dev)
      {
        if i > 0 {
          assert closes[i] == Closes(streams, order[1..])[i - 1];
        }
      }
    }
  }

  /** close() on an open connection leaves nothing behind, and what it sends is one
      Close for each open stream. */
  lemma CloseAllIsExact(h: Host, order: seq<nat>)
    requires HostOk(h) && IsOrder(h, order) && (h.phase == Connected || h.phase == Waiting)
    ensures var e, closes := CloseAll(h, order), Closes(h.streams, order);
      && e.phase == Disconnected && e.queue == [] && e.requests == {} && e.streams == map[]
      && e.out == h.out + closes && e.log == h.log + closes && Distinct(closes)
      && (forall id :: id in h.streams ==> CloseMessage(id, h.streams[id].dev) in closes)
      && (forall m :: m in closes ==> m.host in h.streams && m == CloseMessage(m.host, h.streams[m.host].dev))
  {
    ClosesExactly(h.streams, order);
    var closes := Closes(h.streams, order);
    forall id | id in h.streams
      ensures CloseMessage(id, h.streams[id].dev) in closes
    {
      var i :| 0 <= i < |order| && order[i] == id;
      assert closes[i] in closes;
    }
  }

  lemma {:induction false} ClosesAppend(streams: map<nat, StreamState>, order: seq<nat>, id: nat)
    requires id in streams && forall k :: k in order ==> k in streams
    ensures Closes(streams, order + [id])
         == Closes(streams, order) + [CloseMessage(streams[id].host, streams[id].dev)]
    decreases order
  {
    if order == [] {
      assert [] + [id] == [id];
    } else {
      assert (order + [id])[1..] == order[1..] + [id];
      ClosesAppend(streams, order[1..], id);
    }
  }

  /** A Close that is enqueued when nothing is queued leaves at once. */
  lemma CloseAtOnce(h: Host, id: nat)
    requires h.phase == Connected && h.queue == [] && id in h.streams && h.streams[id].host == id
    ensures var m := CloseMessage(id, h.streams[id].dev);
      Enqueue(h, m) == h.(streams := h.streams - {id}, out := h.out + [m], log := h.log + [m])
  {
    var m := CloseMessage(id, h.streams[id].dev);
    assert (h.queue + [m])[0] == m && (h.queue + [m])[1..] == [];
  }

  /** processQueue sends one message per call, so that the host is left able to
      send, with messages queued, exactly when the message it sent was a Close
      and something of another stream (or of none) is behind it. */
  lemma StallsIff(h: Host)
    requires HostOk(h) && h.phase == Connected && h.queue != []
    ensures ProcessQueue(h).phase == Connected && ProcessQueue(h).queue != [] <==>
      && h.queue[0].command == Close
      && exists m :: m in h.queue[1..] && (h.queue[0].host in h.streams ==> m.host != h.queue[0].host)
  {
    var head, rest := h.queue[0], h.queue[1..];
    assert head in h.queue;
    assert QueuedOk(h, head);
    if head.command == Close {
      var left := ProcessQueue(h).queue;
      if left != [] {
        assert left[0] in left;
      }
    }
  }
}
