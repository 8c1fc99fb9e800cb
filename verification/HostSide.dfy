/** The class Connection of qdb/server/connection.cpp, method by method. */
module HostSide {
  import opened Protocol
  import opened Octets
  import opened Streams
  import opened StreamObjects
  import H = HostMachine

  class Connection {
    var state: H.Phase
    var outgoingMessages: seq<Message>
    var streamRequests: set<nat>
    var streams: map<nat, Stream>
    var nextStreamId: nat
    /** What the transport has sent and the device has not yet received. */
    var wire: seq<Message>
    /** Everything ever sent. */
    ghost var log: seq<Message>
    /** An assertion of processQueue has failed; the state is then what a release
        build makes of it. */
    ghost var fault: bool

    ghost function Table(): map<nat, StreamState>
      reads this, streams.Values
    {
      map id | id in streams :: streams[id].View()
    }

    ghost function View(): H.Host
      reads this, streams.Values
    {
      H.Host(state, outgoingMessages, streamRequests, Table(), nextStreamId, wire, log, fault)
    }

    /** Different ids have different Stream objects. */
    ghost predicate Separate()
      reads this
    {
      forall i, k :: i in streams && k in streams && i != k ==> streams[i] != streams[k]
    }

    /** Streams have been removed, at most. */
    ghost predicate Fewer(table: map<nat, Stream>)
      reads this
    {
      && (forall id :: id in streams ==> id in table && streams[id] == table[id])
      && streams.Values <= table.Values
    }

    ghost predicate Valid()
      reads this, streams.Values
    {
      Separate() && H.HostOk(View())
    }

    constructor ()
      ensures Valid() && View() == H.INITIAL
    {
      state, outgoingMessages, streamRequests, streams := H.Disconnected, [], {}, map[];
      nextStreamId, wire, log, fault := 1, [], [], false;
    }

    /** QdbTransport::send, which succeeds. */
    method Send(message: Message)
      modifies this`wire, this`log
      ensures wire == old(wire) + [message] && log == old(log) + [message]
      ensures View() == H.Send(old(View()), message)
    {
      wire := wire + [message];
      log := log + [message];
    }

    method CloseStream(id: nat)
      requires Separate()
      modifies this`streams, this`outgoingMessages
      ensures Separate() && streams == old(streams) - {id}
      ensures View() == H.CloseStream(old(View()), id)
    {
      if id !in streams {
        return;
      }
      streams := streams - {id};
      outgoingMessages := WithoutHost(outgoingMessages, id);
    }

    method ProcessQueue()
      requires Separate()
      modifies this
      ensures Separate() && Fewer(old(streams))
      ensures View() == H.ProcessQueue(old(View()))
    {
      if outgoingMessages == [] || state == H.Waiting || state == H.WaitingForConnection {
        return;
      }
      var message := SendHead();
      if message.command == Command.Connect {
        state := H.WaitingForConnection;
        assert Table() == old(Table());
      } else if message.command == Command.Open || message.command == Command.Write {
        state := H.Waiting;
        assert Table() == old(Table());
      } else if message.command == Command.Close {
        CloseStream(message.host);
      }
    }

    /** The message at the head of the queue is sent; an assertion fails if it may
        not be sent in this state. */
    method SendHead() returns (message: Message)
      requires outgoingMessages != []
      modifies this`outgoingMessages, this`fault, this`wire, this`log
      ensures message == old(outgoingMessages)[0]
      ensures View() == H.Send(old(View()), message).(
        queue := old(outgoingMessages)[1..],
        fault := old(fault) || !H.DispatchAllowed(state, message.command))
    {
      message := outgoingMessages[0];
      outgoingMessages := outgoingMessages[1..];
      fault := fault || !H.DispatchAllowed(state, message.command);
      assert Table() == old(Table());
      Send(message);
    }

    method EnqueueMessage(message: Message)
      requires Separate()
      modifies this
      ensures Separate() && Fewer(old(streams))
      ensures View() == H.Enqueue(old(View()), message)
    {
      outgoingMessages := outgoingMessages + [message];
      assert Table() == old(Table());
      ProcessQueue();
    }

    method Connect()
      requires Separate() && state == H.Disconnected
      modifies this
      ensures Separate() && Fewer(old(streams))
      ensures View() == H.Connect(old(View()))
      ensures H.HostOk(old(View())) ==> (fault <==> old(outgoingMessages) != [])
    {
      ghost var h := View();
      if H.HostOk(h) {
        H.ConnectFaultsIff(h);
      }
      EnqueueMessage(ConnectMessage());
    }

    method ResetConnection(reconnect: bool)
      modifies this
      ensures Separate() && streams == map[]
      ensures View() == H.Reset(old(View()), reconnect)
    {
      outgoingMessages := [];
      state := H.Disconnected;
      streamRequests := {};
      streams := map[];
      assert Table() == map[];
      if reconnect {
        Connect();
        assert streams == map[];
      }
    }

    method HandleRefuse(payload: Bytes)
      modifies this
      ensures Separate() && streams == map[]
      ensures View() == H.HandleRefuse(old(View()), payload)
      ensures state == if StartsWith(payload, [0, 0, 0, 1]) then H.WaitingForConnection else H.Disconnected
    {
      ReasonOf(payload);
      match ToRefuseReason(ReadUint32(payload)) {
        case NotConnected => ResetConnection(true);
        case UnknownVersion => ResetConnection(false);
        case InvalidReason => ResetConnection(false);
      }
    }

    method Acknowledge(hostId: nat, deviceId: nat)
      requires state == H.Connected || state == H.Waiting
      modifies this`wire, this`log
      ensures View() == H.Send(old(View()), OkMessage(hostId, deviceId))
    {
      Send(OkMessage(hostId, deviceId));
    }

    method HandleWrite(message: Message) returns (packet: Option<Packet>)
      requires Separate() && (state == H.Connected || state == H.Waiting)
      modifies this, streams.Values
      ensures Separate() && streams.Values <= old(streams.Values)
      ensures View() == H.HandleWrite(old(View()), message)
    {
      if message.host !in streams {
        EnqueueMessage(CloseMessage(message.host, message.dev));
        return None;
      }
      Acknowledge(message.host, message.dev);
      packet := streams[message.host].ReceiveMessage(message);
      assert Table() == old(Table())[message.host := Receive(old(Table())[message.host], message.data).0];
    }

    method FinishCreateStream(hostId: nat, deviceId: nat)
      requires Separate()
      modifies this
      ensures Separate() && fresh(streams.Values - old(streams.Values))
      ensures View() == H.FinishCreateStream(old(View()), hostId, deviceId)
    {
      var stream := new Stream(hostId, deviceId);
      streams := streams[hostId := stream];
      streamRequests := streamRequests - {hostId};
      assert Table() == old(Table())[hostId := NewStream(hostId, deviceId)];
    }

    /** `packet` is what the stream of a Write emits. */
    method HandleMessage(message: Message) returns (packet: Option<Packet>)
      requires Valid() && message.command != Open
      modifies this, streams.Values
      ensures Separate() && fresh(streams.Values - old(streams.Values))
      ensures View() == H.Handle(old(View()), message)
      ensures Valid() <==> !H.TripsAssertion(old(View()), message)
    {
      ghost var h := View();
      H.HandleFaultsIff(h, message);
      if !H.TripsAssertion(h, message) {
        H.HandleOk(h, message);
      }
      packet := None;
      if message.command == Invalid {
        if state != H.Disconnected {
          ResetConnection(false);
        }
        return;
      }
      packet := DispatchMessage(message);
      ProcessQueue();
    }

    /** The switch of handleMessage. */
    method DispatchMessage(message: Message) returns (packet: Option<Packet>)
      requires Separate() && message.command != Open && message.command != Invalid
      modifies this, streams.Values
      ensures Separate() && fresh(streams.Values - old(streams.Values))
      ensures View() == H.Dispatch(old(View()), message)
    {
      packet := None;
      match state {
        case Disconnected =>
          ResetConnection(true);
        case WaitingForConnection =>
          if message.command == Command.Connect {
            state := if VersionMatches(message.data) then H.Connected else H.Disconnected;
            assert Table() == old(Table());
          } else if message.command == Refuse {
            HandleRefuse(message.data);
          } else {
            ResetConnection(true);
          }
        case _ =>
          packet := DispatchConnected(message);
      }
    }

    /** The cases Connected and Waiting, which differ in their handling of Ok. */
    method DispatchConnected(message: Message) returns (packet: Option<Packet>)
      requires Separate() && (state == H.Connected || state == H.Waiting)
      requires message.command != Open && message.command != Invalid
      modifies this, streams.Values
      ensures Separate() && fresh(streams.Values - old(streams.Values))
      ensures View() == H.Dispatch(old(View()), message)
    {
      packet := None;
      match message.command {
        case Connect => ResetConnection(true);
        case Refuse => HandleRefuse(message.data);
        case Write => packet := HandleWrite(message);
        case Close => CloseStream(message.host);
        case Open => assert false;
        case Invalid => assert false;
        case Ok =>
          if state == H.Waiting {
            state := H.Connected;
            assert Table() == old(Table());
            if message.host in streamRequests {
              FinishCreateStream(message.host, message.dev);
            }
          }
      }
    }

    method CreateStream(openTag: Bytes) returns (id: nat)
      requires Valid() && state != H.Disconnected
      modifies this
      ensures View() == H.CreateStream(old(View()), openTag) && id == old(nextStreamId)
      ensures Valid() && Fewer(old(streams))
    {
      ghost var h := View();
      H.CanCreateStream(h, openTag);
      id := AddRequest();
      EnqueueMessage(Message(Open, id, 0, openTag));
      assert View() == H.CreateStream(h, openTag);
    }

    method AddRequest() returns (id: nat)
      modifies this`nextStreamId, this`streamRequests
      ensures id == old(nextStreamId)
      ensures View() == old(View()).(nextId := id + 1, requests := old(streamRequests) + {id})
    {
      id := nextStreamId;
      nextStreamId := nextStreamId + 1;
      streamRequests := streamRequests + {id};
      assert Table() == old(Table());
    }

    /** Stream::requestClose on the stream `id` of this connection. */
    method RequestClose(id: nat)
      requires Valid() && id in streams
      modifies this
      ensures Valid() && Fewer(old(streams))
      ensures View() == H.RequestClose(old(View()), id)
    {
      H.RequestCloseOk(View(), id);
      EnqueueMessage(CloseMessage(streams[id].hostId, streams[id].deviceId));
    }

    /** Stream::write on the stream `id` of this connection. The loop uses the
        stream for each fragment, so it must not be closed, and destroyed, by the
        fragments before. */
    method WritePacket(id: nat, packet: Packet)
      requires Valid() && id in streams && IsPacket(packet) && H.StaysOpen(View(), id, Fragments(Wrap(packet)))
      modifies this, streams.Values
      ensures Valid() && Fewer(old(streams))
      ensures View() == H.WritePacket(old(View()), id, packet)
    {
      ghost var h := View();
      var data := StreamObjects.WrapPacket(packet);
      WriteFragments(id, data);
      Note(id, packet);
      assert View() == H.WritePacket(h, id, packet);
      H.WritePacketOk(h, id, packet);
    }

    ghost method Note(id: nat, packet: Packet)
      requires Separate()
      modifies streams.Values
      ensures View() == H.Note(old(View()), id, packet)
    {
      if id in streams {
        streams[id].wrote := streams[id].wrote + [packet];
        assert Table() == H.Note(old(View()), id, packet).streams;
      }
    }

    /** The loop of Stream::write. */
    method WriteFragments(id: nat, bytes: Bytes)
      requires Valid() && H.StaysOpen(View(), id, Fragments(bytes))
      modifies this, streams.Values
      ensures Valid() && Fewer(old(streams))
      ensures View() == H.EnqueueFragments(old(View()), id, Fragments(bytes))
    {
      var data := bytes;
      while data != []
        invariant Valid() && H.StaysOpen(View(), id, Fragments(data))
        invariant Fewer(old(streams))
        invariant H.EnqueueFragments(View(), id, Fragments(data))
               == H.EnqueueFragments(old(View()), id, Fragments(bytes))
        decreases |data|
      {
        var splitSize := if |data| < MAX_PAYLOAD then |data| else MAX_PAYLOAD;
        EnqueueFragment(id, data[..splitSize]);
        data := data[splitSize..];
      }
    }

    method EnqueueFragment(id: nat, fragment: Bytes)
      requires Valid() && id in streams
      modifies this, streams.Values
      ensures Valid() && Fewer(old(streams))
      ensures View() == H.ProcessQueue(H.Queueing(old(View()), id, fragment))
    {
      ghost var h := View();
      H.QueueingOk(h, id, fragment);
      H.ProcessQueueOk(H.Queueing(h, id, fragment));
      var stream := streams[id];
      stream.frags := stream.frags + [fragment];
      assert Table() == H.Queueing(h, id, fragment).streams;
      EnqueueMessage(Message(Write, stream.hostId, stream.deviceId, fragment));
    }

    /** `order` is the order in which the stream table yields the streams. */
    method Close() returns (ghost order: seq<nat>)
      requires Valid()
      modifies this
      ensures H.IsOrder(old(View()), order) && View() == H.CloseAll(old(View()), order)
      ensures Valid() && streams == map[]
    {
      ghost var h := View();
      order := [];
      if state == H.Disconnected || state == H.WaitingForConnection {
        state := H.Disconnected;
        assert Table() == old(Table());
      } else {
        assert forall id :: id in streams ==> Table()[id].host == streams[id].hostId;
        order := CloseOpen();
      }
      H.CloseAllOk(h, order);
    }

    /** close() on an open connection. */
    method CloseOpen() returns (ghost order: seq<nat>)
      requires Separate() && (state == H.Connected || state == H.Waiting)
      requires forall id :: id in streams ==> streams[id].hostId == id
      modifies this
      ensures H.IsOrder(old(View()), order) && View() == H.CloseAll(old(View()), order)
      ensures streams == map[]
    {
      ghost var h := View();
      // No need to wait for Ok just to send the final Closes.
      state := H.Connected;
      outgoingMessages := [];
      streamRequests := {};
      assert Table() == h.streams;
      order := CloseStreams();
      state := H.Disconnected;
      assert Table() == map[];
      assert View() == H.CloseAll(h, order);
    }

    /** The loop of close(). */
    method CloseStreams() returns (ghost order: seq<nat>)
      requires Separate() && state == H.Connected && outgoingMessages == []
      requires forall id :: id in streams ==> streams[id].hostId == id
      modifies this
      ensures H.IsOrder(old(View()), order) && streams == map[]
      ensures var closes := H.Closes(old(Table()), order); wire == old(wire) + closes && log == old(log) + closes
      ensures state == H.Connected && outgoingMessages == []
      ensures streamRequests == old(streamRequests) && nextStreamId == old(nextStreamId) && fault == old(fault)
    {
      ghost var table, closes := Table(), [];
      order := [];
      while streams != map[]
        invariant Separate() && Fewer(old(streams))
        invariant state == H.Connected && outgoingMessages == []
        invariant streamRequests == old(streamRequests) && nextStreamId == old(nextStreamId) && fault == old(fault)
        invariant forall id :: id in order ==> id in table && id !in streams
        invariant Distinct(order)
        invariant forall id :: id in table ==> id in order || id in streams
        invariant wire == old(wire) + closes
        invariant log == old(log) + closes
        invariant closes == H.Closes(table, order)
        decreases |streams|
      {
        var id :| id in streams;
        ghost var m := CloseMessage(id, streams[id].deviceId);
        assert table[id].host == id && table[id].dev == streams[id].deviceId;
        CloseOne(id);
        H.ClosesAppend(table, order, id);
        Associative(old(wire), closes, [m]);
        Associative(old(log), closes, [m]);
        DistinctGrows(order, id);
        closes, order := closes + [m], order + [id];
      }
    }

    method CloseOne(id: nat)
      requires Separate() && state == H.Connected && outgoingMessages == []
      requires id in streams && streams[id].hostId == id
      modifies this
      ensures Separate() && streams == old(streams) - {id}
      ensures var m := CloseMessage(id, old(streams)[id].deviceId); wire == old(wire) + [m] && log == old(log) + [m]
      ensures state == H.Connected && outgoingMessages == []
      ensures streamRequests == old(streamRequests) && nextStreamId == old(nextStreamId) && fault == old(fault)
    {
      H.CloseAtOnce(View(), id);
      EnqueueMessage(CloseMessage(streams[id].hostId, streams[id].deviceId));
      assert Table().Keys == streams.Keys;
    }
  }
}
