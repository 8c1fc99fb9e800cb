/** What the host does with each message in each phase, told by its outcome. */
module HostLaws {
  import opened Protocol
  import opened Streams
  import opened HostMachine
  import opened Octets

  // ---------- The handshake ----------

  /** The host has forgotten everything but its ids. */
  predicate Forgotten(h: Host, e: Host) {
    e.queue == [] && e.requests == {} && e.streams == map[] && e.nextId == h.nextId && e.fault == h.fault
  }

  /** The host starts over: it has sent one Connect and awaits the reply. */
  predicate StartsOver(h: Host, e: Host) {
    && Forgotten(h, e) && e.phase == WaitingForConnection
    && e.out == h.out + [CONNECT] && e.log == h.log + [CONNECT]
  }

  /** The host gives up, and sends nothing. */
  predicate GivesUp(h: Host, e: Host) {
    Forgotten(h, e) && e.phase == Disconnected && e.out == h.out && e.log == h.log
  }

  /** Messages that make the host start over. */
  predicate Restarts(phase: Phase, m: Message) {
    match phase
    case Disconnected => m.command != Invalid
    case WaitingForConnection =>
      m.command != Invalid && m.command != Command.Connect && (m.command == Refuse ==> StartsWith(m.data, [0, 0, 0, 1]))
    case _ => m.command == Command.Connect || (m.command == Refuse && StartsWith(m.data, [0, 0, 0, 1]))
  }

  /** Messages that make a host that is not disconnected give up. */
  predicate Ends(m: Message) {
    m.command == Invalid || (m.command == Refuse && !StartsWith(m.data, [0, 0, 0, 1]))
  }

  /** A reply of another version, which the host takes for the end of the matter. */
  predicate OtherVersion(h: Host, m: Message) {
    h.phase == WaitingForConnection && m.command == Command.Connect && !StartsWith(m.data, [0, 0, 0, 1])
  }

  lemma ResetOutcome(h: Host)
    requires 1 <= h.nextId && !h.fault
    ensures StartsOver(h, Reset(h, true)) && GivesUp(h, Reset(h, false))
    ensures ProcessQueue(Reset(h, true)) == Reset(h, true) && ProcessQueue(Reset(h, false)) == Reset(h, false)
  {
    HandshakeMessages();
    ResetOk(h, true);
    ResetOk(h, false);
    assert !Reset(h, true).fault && !Reset(h, false).fault;
    assert h.out + [] == h.out && h.log + [] == h.log;
  }

  lemma RefuseOutcome(h: Host, data: Bytes)
    requires 1 <= h.nextId && !h.fault
    ensures StartsWith(data, [0, 0, 0, 1]) ==> StartsOver(h, HandleRefuse(h, data))
    ensures !StartsWith(data, [0, 0, 0, 1]) ==> GivesUp(h, HandleRefuse(h, data))
    ensures ProcessQueue(HandleRefuse(h, data)) == HandleRefuse(h, data)
  {
    ReasonOf(data);
    ResetOutcome(h);
  }

  /** Whatever queue and streams the host has, it starts over on these messages. */
  lemma RestartsDo(h: Host, m: Message)
    requires HostOk(h) && m.command != Open && Restarts(h.phase, m)
    ensures StartsOver(h, Handle(h, m))
  {
    ResetOutcome(h);
    RefuseOutcome(h, m.data);
  }

  lemma EndsDo(h: Host, m: Message)
    requires HostOk(h) && h.phase != Disconnected && Ends(m)
    ensures GivesUp(h, Handle(h, m))
  {
    ResetOutcome(h);
    RefuseOutcome(h, m.data);
  }

  /** The host does not send a Connect of its own but to start over. */
  lemma ProcessQueueStays(h: Host)
    requires HostOk(h) && (h.phase == Connected || h.phase == Waiting)
    ensures var e := ProcessQueue(h); e.phase == Connected || e.phase == Waiting
  {
    if MaySend(h) {
      assert h.queue[0] in h.queue && QueuedOk(h, h.queue[0]);
    }
  }

  lemma SessionStays(h: Host, m: Message)
    requires HostOk(h) && (h.phase == Connected || h.phase == Waiting)
    requires m.command == Write || m.command == Close || m.command == Ok
    ensures var e := Handle(h, m); e.phase == Connected || e.phase == Waiting
  {
    DispatchOk(h, m);
    if m.command == Write && m.host !in h.streams {
      QueueingCloseOk(h, CloseMessage(m.host, m.dev));
      ProcessQueueStays(h.(queue := h.queue + [CloseMessage(m.host, m.dev)]));
    }
    ProcessQueueStays(Dispatch(h, m));
  }

  /** The reply of version 1 opens the connection, and sends the first request. */
  lemma ReplyOpens(h: Host, m: Message)
    requires HostOk(h) && h.phase == WaitingForConnection
    requires m.command == Command.Connect && StartsWith(m.data, [0, 0, 0, 1])
    ensures var e := Handle(h, m);
      && e.requests == h.requests && e.streams == map[] && e.nextId == h.nextId && !e.fault
      && (h.queue == [] ==> e == h.(phase := Connected))
      && (h.queue != [] ==>
           && e.phase == Waiting && e.queue == h.queue[1..]
           && e.out == h.out + [h.queue[0]] && e.log == h.log + [h.queue[0]])
  {
    VersionIsOne(m.data);
    if h.queue != [] {
      assert h.queue[0] in h.queue;
    }
  }

  /** A reply of another version disconnects the host. If it has requests, it trips
      over the first of them. */
  lemma OtherVersionOutcome(h: Host, m: Message)
    requires HostOk(h) && OtherVersion(h, m)
    ensures h.queue == [] ==> GivesUp(h, Handle(h, m))
    ensures h.queue != [] ==> Handle(h, m).fault
  {
    VersionIsOne(m.data);
    if h.queue != [] {
      assert h.queue[0] in h.queue;
    } else {
      assert OpenIds(h.queue) == {};
    }
  }

  /** For every state and every message but Open: the host sends one Connect and
      waits, with everything forgotten, exactly on the messages of `Restarts`; a host
      that is not disconnected ends disconnected, with everything forgotten and
      nothing sent, exactly on those of `Ends` and on a reply of another version that
      finds no request; a disconnected host ignores exactly Invalid; and all other
      messages leave it in a session. */
  lemma HandleOutcome(h: Host, m: Message)
    requires HostOk(h) && m.command != Open
    ensures var e := Handle(h, m);
      && (StartsOver(h, e) <==> Restarts(h.phase, m))
      && (h.phase != Disconnected ==> (GivesUp(h, e) <==> Ends(m) || (OtherVersion(h, m) && h.queue == [])))
      && (h.phase == Disconnected ==> (e == h <==> m.command == Invalid))
      && (h.phase != Disconnected && !OtherVersion(h, m) ==>
           (e.phase == Connected || e.phase == Waiting <==> !Restarts(h.phase, m) && !Ends(m)))
  {
    if Restarts(h.phase, m) {
      RestartsDo(h, m);
    } else if h.phase == Disconnected {
      assert Handle(h, m) == h;
    } else if Ends(m) {
      EndsDo(h, m);
    } else if OtherVersion(h, m) {
      OtherVersionOutcome(h, m);
    } else if h.phase == WaitingForConnection {
      ReplyOpens(h, m);
    } else {
      SessionStays(h, m);
    }
  }

  // ---------- In a session ----------

  predicate InSession(h: Host) {
    h.phase == Connected || h.phase == Waiting
  }

  /** The host has sent `m` past its queue. */
  function Having(h: Host, m: Message): Host {
    h.(out := h.out + [m], log := h.log + [m])
  }

  /** At most one message leaves: the head of the queue, if the host waits for
      nothing. After an Open or a Write it waits; after a Close the stream is gone,
      with everything that was queued for it. */
  predicate SendsNext(h: Host, e: Host) {
    if h.phase != Connected || h.queue == [] then e == h
    else
      var m, rest := h.queue[0], h.queue[1..];
      if m.command == Close then
        if m.host in h.streams then
          e == Having(h, m).(streams := h.streams - {m.host}, queue := WithoutHost(rest, m.host))
        else e == Having(h, m).(queue := rest)
      else e == Having(h, m).(queue := rest, phase := Waiting)
  }

  /** Exactly when an assertion of processQueue fails, in any state: a disconnected
      host is to send anything but a Connect, or a connected one anything but an Open,
      a Write or a Close. */
  lemma FaultsIff(h: Host)
    requires h.queue != []
    ensures var command := h.queue[0].command;
      ProcessQueue(h).fault
      <==> h.fault
           || (h.phase == Disconnected && command != Command.Connect)
           || (h.phase == Connected && command !in {Command.Open, Write, Close})
  {
  }

  lemma NextOutcome(h: Host)
    requires HostOk(h) && InSession(h)
    ensures SendsNext(h, ProcessQueue(h)) && HostOk(ProcessQueue(h)) && InSession(ProcessQueue(h))
  {
    ProcessQueueOk(h);
    ProcessQueueStays(h);
    if MaySend(h) {
      assert h.queue[0] in h.queue && QueuedOk(h, h.queue[0]);
    }
  }

  /** A Write to an open stream is acknowledged at once, before anything queued and
      whatever the host waits for, and its payload is received. */
  lemma WriteOutcome(h: Host, m: Message)
    requires HostOk(h) && InSession(h) && m.command == Write && m.host in h.streams
    ensures SendsNext(
      Having(h, Message(Ok, m.host, m.dev, [])).(
        streams := h.streams[m.host := Receive(h.streams[m.host], m.data).0]),
      Handle(h, m))
  {
    DispatchOk(h, m);
    NextOutcome(Dispatch(h, m));
  }

  /** A Write to an unknown stream is answered with a Close for its pair of ids. It
      is queued if the host waits, and sent at once if nothing is queued before it;
      no stream is touched but those whose Close leaves. */
  lemma StrayWriteOutcome(h: Host, m: Message)
    requires HostOk(h) && InSession(h) && m.command == Write && m.host !in h.streams
    ensures var e, reply := Handle(h, m), Message(Close, m.host, m.dev, []);
      && (h.phase == Waiting ==> e == h.(queue := h.queue + [reply]))
      && (h.phase == Connected && h.queue == [] ==> e == Having(h, reply))
      && exists mid :: SendsNext(h.(queue := h.queue + [reply]), mid) && SendsNext(mid, e)
  {
    var reply := Message(Close, m.host, m.dev, []);
    var q := h.(queue := h.queue + [reply]);
    QueueingCloseOk(h, reply);
    NextOutcome(q);
    NextOutcome(ProcessQueue(q));
    assert Handle(h, m) == ProcessQueue(ProcessQueue(q));
    if h.queue == [] {
      assert q.queue[0] == reply && q.queue[1..] == [];
    }
  }

  /** A Close removes its stream and what is queued for it, and nothing else; it is
      not answered, and a waiting host goes on waiting. */
  lemma CloseOutcome(h: Host, m: Message)
    requires HostOk(h) && InSession(h) && m.command == Close
    ensures m.host !in h.streams ==> SendsNext(h, Handle(h, m))
    ensures m.host in h.streams ==>
      SendsNext(h.(streams := h.streams - {m.host}, queue := WithoutHost(h.queue, m.host)), Handle(h, m))
  {
    DispatchOk(h, m);
    NextOutcome(Dispatch(h, m));
  }

  /** An Ok ends the wait, so that the next message leaves. If it is for a request,
      that becomes a new stream under the pair of ids. Nobody waiting, it is ignored. */
  lemma OkOutcome(h: Host, m: Message)
    requires HostOk(h) && InSession(h) && m.command == Ok
    ensures h.phase == Connected ==> SendsNext(h, Handle(h, m))
    ensures h.phase == Waiting && m.host !in h.requests ==> SendsNext(h.(phase := Connected), Handle(h, m))
    ensures h.phase == Waiting && m.host in h.requests ==>
      SendsNext(
        h.(phase := Connected, requests := h.requests - {m.host},
           streams := h.streams[m.host := StreamState(m.host, m.dev, Assembly(false, 0, []), [], [], [], [])]),
        Handle(h, m))
  {
    DispatchOk(h, m);
    NextOutcome(Dispatch(h, m));
  }

  // ---------- The calls of the application ----------

  lemma SendsOnly(h: Host, m: Message)
    requires HostOk(h) && h.phase == Connected && h.queue == [m]
    ensures ProcessQueue(h) == if m.command == Close
      then Having(h, m).(queue := [], streams := h.streams - {m.host})
      else Having(h, m).(queue := [], phase := Waiting)
  {
    NextOutcome(h);
    assert h.queue[1..] == [];
  }

  /** createStream hands out the next id. Its Open leaves at once if nothing is
      queued before it, and is queued behind everything else otherwise. */
  lemma CreateStreamOutcome(h: Host, tag: Bytes)
    requires HostOk(h)
    ensures var e, m := CreateStream(h, tag), Message(Open, h.nextId, 0, tag);
      && e.nextId == h.nextId + 1 && e.requests == h.requests + {h.nextId} && h.nextId !in h.requests
      && (e.fault <==> h.phase == Disconnected)
      && (h.phase == WaitingForConnection || h.phase == Waiting ==>
           e.queue == h.queue + [m] && e.phase == h.phase && e.out == h.out && e.streams == h.streams)
      && (h.phase == Connected && h.queue == [] ==>
           e.queue == [] && e.phase == Waiting && e.out == h.out + [m] && e.streams == h.streams)
      && (h.phase == Connected ==> SendsNext(Requesting(h, tag), e))
  {
    var q := Requesting(h, tag);
    RequestingOk(h, tag);
    if h.phase == Disconnected {
      assert q.queue[0] in q.queue && q.queue[0].command == Open;
    } else if h.phase == Connected {
      NextOutcome(q);
      if h.queue == [] {
        SendsOnly(q, Message(Open, h.nextId, 0, tag));
      }
    }
  }

  /** requestClose queues a Close for the pair of ids; when that leaves, as it does
      at once on an idle host, the stream is gone. */
  lemma RequestCloseOutcome(h: Host, id: nat)
    requires HostOk(h) && id in h.streams
    ensures var e, m := RequestClose(h, id), Message(Close, id, h.streams[id].dev, []);
      && (h.phase == Waiting ==> e == h.(queue := h.queue + [m]))
      && (h.phase == Connected && h.queue == [] ==> e == Having(h, m).(streams := h.streams - {id}))
      && (h.phase == Connected ==> SendsNext(h.(queue := h.queue + [m]), e))
  {
    var m := Message(Close, id, h.streams[id].dev, []);
    QueueingCloseOk(h, m);
    NextOutcome(h.(queue := h.queue + [m]));
    if h.phase == Connected && h.queue == [] {
      SendsOnly(h.(queue := h.queue + [m]), m);
    }
  }

  /** close() before the handshake is complete changes only the phase: what has
      been requested stays queued. */
  lemma CloseBeforeReply(h: Host, order: seq<nat>)
    requires HostOk(h) && IsOrder(h, order) && !InSession(h)
    ensures CloseAll(h, order) == h.(phase := Disconnected)
  {
  }

  /** While the host waits, a packet is queued as Writes behind everything else. */
  lemma {:induction false} WritesWhileWaiting(h: Host, id: nat, fragments: seq<Bytes>)
    requires h.phase == Waiting && id in h.streams
    ensures var s := h.streams[id];
      EnqueueFragments(h, id, fragments) == h.(
        queue := h.queue + WriteMessages(s.host, s.dev, fragments),
        streams := h.streams[id := s.(frags := s.frags + fragments)])
    decreases fragments
  {
    var s := h.streams[id];
    if fragments == [] {
      assert s.frags + [] == s.frags && h.streams[id := s] == h.streams && h.queue + [] == h.queue;
    } else {
      var q := Queueing(h, id, fragments[0]);
      var first := Message(Write, s.host, s.dev, fragments[0]);
      WritesWhileWaiting(q, id, fragments[1..]);
      assert fragments == [fragments[0]] + fragments[1..];
      Associative(s.frags, [fragments[0]], fragments[1..]);
      Associative(h.queue, [first], WriteMessages(s.host, s.dev, fragments[1..]));
    }
  }

  lemma FirstWrite(h: Host, id: nat, fragment: Bytes)
    requires HostOk(h) && h.phase == Connected && h.queue == [] && id in h.streams
    ensures var s := h.streams[id];
      ProcessQueue(Queueing(h, id, fragment)) == Having(h, Message(Write, id, s.dev, fragment)).(
        phase := Waiting, streams := h.streams[id := s.(frags := s.frags + [fragment])])
  {
    QueueingOk(h, id, fragment);
    SendsOnly(Queueing(h, id, fragment), Message(Write, id, h.streams[id].dev, fragment));
  }

  lemma WritesWhenIdle(h: Host, id: nat, fragments: seq<Bytes>)
    requires HostOk(h) && h.phase == Connected && h.queue == [] && id in h.streams && fragments != []
    ensures var s := h.streams[id];
      var writes := WriteMessages(id, s.dev, fragments);
      EnqueueFragments(h, id, fragments) == Having(h, writes[0]).(
        phase := Waiting, queue := writes[1..],
        streams := h.streams[id := s.(frags := s.frags + fragments)])
  {
    var first, rest := fragments[0], fragments[1..];
    FirstWrite(h, id, first);
    OthersWait(h, ProcessQueue(Queueing(h, id, first)), id, first, rest);
    assert fragments == [first] + rest;
    assert WriteMessages(id, h.streams[id].dev, fragments)[1..] == WriteMessages(id, h.streams[id].dev, rest);
  }

  lemma OthersWait(h: Host, w: Host, id: nat, first: Bytes, rest: seq<Bytes>)
    requires id in h.streams && h.queue == []
    requires var s := h.streams[id];
      s.host == id
      && w == Having(h, Message(Write, id, s.dev, first)).(
           phase := Waiting, streams := h.streams[id := s.(frags := s.frags + [first])])
    ensures var s := h.streams[id];
      EnqueueFragments(w, id, rest) == Having(h, Message(Write, id, s.dev, first)).(
        phase := Waiting, queue := WriteMessages(id, s.dev, rest),
        streams := h.streams[id := s.(frags := s.frags + ([first] + rest))])
  {
    var s := h.streams[id];
    WritesWhileWaiting(w, id, rest);
    Associative(s.frags, [first], rest);
    assert w.streams[id := s.(frags := s.frags + ([first] + rest))]
        == h.streams[id := s.(frags := s.frags + ([first] + rest))];
    assert w.queue + WriteMessages(id, s.dev, rest) == WriteMessages(id, s.dev, rest);
  }

  lemma Noted(h: Host, id: nat, packet: Packet)
    requires id in h.streams
    ensures var s := h.streams[id];
      Note(h, id, packet) == h.(streams := h.streams[id := s.(wrote := s.wrote + [packet])])
  {
  }

  /** The history of a stream to which `packet` has been written. */
  predicate HasWritten(h: Host, e: Host, id: nat, packet: Packet)
    requires id in h.streams
  {
    var s := h.streams[id];
    e.streams == h.streams[id := s.(frags := s.frags + Fragments(Wrap(packet)), wrote := s.wrote + [packet])]
  }

  /** A packet written on an idle host: the first of its Writes leaves, the others
      are queued, and the host waits. */
  lemma WritePacketWhenIdle(h: Host, id: nat, packet: Packet)
    requires HostOk(h) && id in h.streams && h.phase == Connected && h.queue == []
    ensures var e := WritePacket(h, id, packet);
      && HasWritten(h, e, id, packet) && e.phase == Waiting && e.requests == h.requests && e.nextId == h.nextId
      && exists writes ::
        ArePacket(writes, id, h.streams[id].dev, packet) && e.out == h.out + writes[..1] && e.queue == writes[1..]
  {
    var s, fragments := h.streams[id], Fragments(Wrap(packet));
    var writes := WriteMessages(id, s.dev, fragments);
    PacketWrites(id, s.dev, packet);
    WritesWhenIdle(h, id, fragments);
    Noted(EnqueueFragments(h, id, fragments), id, packet);
    assert writes[..1] == [writes[0]];
  }

  /** A packet written on a waiting host is queued behind everything else. */
  lemma WritePacketWhileWaiting(h: Host, id: nat, packet: Packet)
    requires HostOk(h) && id in h.streams && h.phase == Waiting
    ensures var e := WritePacket(h, id, packet);
      && HasWritten(h, e, id, packet) && e.phase == Waiting && e.requests == h.requests && e.nextId == h.nextId
      && exists writes ::
        ArePacket(writes, id, h.streams[id].dev, packet) && e.out == h.out && e.queue == h.queue + writes
  {
    var s, fragments := h.streams[id], Fragments(Wrap(packet));
    PacketWrites(id, s.dev, packet);
    WritesWhileWaiting(h, id, fragments);
    Noted(EnqueueFragments(h, id, fragments), id, packet);
  }
}
