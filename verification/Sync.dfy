/** The invariant of the joint system over whole runs: a host that waits for the
    Connect reply will get the reply to its last Connect from a freshly reset
    device, and a connected host is in a session unless a Connect is in flight. */
module Sync {
  import opened Protocol
  import opened Streams
  import opened Joint
  import H = HostMachine
  import D = DeviceMachine
  import HostReceives

  // ---------- The histories of the host's streams ----------

  ghost predicate HistoryOk(s: StreamState) {
    InboxOk(s) && OutboxOk(s) && ArePackets(s.wrote)
  }

  ghost predicate HistoriesOk(h: H.Host) {
    forall id :: id in h.streams ==> HistoryOk(h.streams[id])
  }

  /** Every stream in table `e` is in table `h`, unchanged. */
  predicate FewerStreams(h: map<nat, StreamState>, e: map<nat, StreamState>) {
    forall id :: id in e ==> id in h && e[id] == h[id]
  }

  lemma ProcessQueueHistories(h: H.Host)
    ensures FewerStreams(h.streams, H.ProcessQueue(h).streams)
    ensures HistoriesOk(h) ==> HistoriesOk(H.ProcessQueue(h))
  {
  }

  lemma ResetHistories(h: H.Host, reconnect: bool)
    ensures HistoriesOk(H.Reset(h, reconnect))
  {
    ProcessQueueHistories(H.Cleared(h).(queue := H.Cleared(h).queue + [ConnectMessage()]));
  }

  lemma HandleWriteHistories(h: H.Host, m: Message)
    requires HistoriesOk(h)
    ensures HistoriesOk(H.HandleWrite(h, m))
  {
    if m.host !in h.streams {
      ProcessQueueHistories(h.(queue := h.queue + [CloseMessage(m.host, m.dev)]));
    } else {
      HostReceives.ReceivedHistory(h.streams[m.host], m.data);
      assert HistoryOk(Receive(h.streams[m.host], m.data).0);
    }
  }

  lemma DispatchHistories(h: H.Host, m: Message)
    requires HistoriesOk(h)
    ensures HistoriesOk(H.Dispatch(h, m))
  {
    ResetHistories(h, true);
    ResetHistories(h, false);
    HandleWriteHistories(h, m);
    if m.command == Ok {
      assert HistoryOk(NewStream(m.host, m.dev));
    }
  }

  lemma HandleHistories(h: H.Host, m: Message)
    requires HistoriesOk(h)
    ensures HistoriesOk(H.Handle(h, m))
  {
    if m.command == Invalid {
      ResetHistories(h, false);
    } else {
      DispatchHistories(h, m);
      ProcessQueueHistories(H.Dispatch(h, m));
    }
  }

  /** All streams but `id` can only disappear; `id` stays and gains `fragments`. */
  ghost predicate Gained(h: H.Host, e: H.Host, id: nat, fragments: seq<Bytes>) {
    && id in h.streams && id in e.streams
    && e.streams[id] == h.streams[id].(frags := h.streams[id].frags + fragments)
    && FewerStreams(h.streams - {id}, e.streams - {id})
    && !CloseRequested(e, id)
  }

  lemma FragmentQueued(h: H.Host, id: nat, fragment: Bytes)
    requires id in h.streams && !CloseRequested(h, id)
    ensures Gained(h, H.ProcessQueue(H.Queueing(h, id, fragment)), id, [fragment])
  {
    var q := H.Queueing(h, id, fragment);
    var e := H.ProcessQueue(q);
    assert forall m :: m in e.queue ==> m in q.queue;
    assert H.MaySend(q) ==> q.queue[0] in q.queue;
    assert !CloseRequested(q, id);
  }

  /** All fragments of a packet are queued on its stream, which stays open. */
  lemma {:induction false} FragmentsQueued(h: H.Host, id: nat, fragments: seq<Bytes>)
    requires id in h.streams && !CloseRequested(h, id)
    ensures Gained(h, H.EnqueueFragments(h, id, fragments), id, fragments)
    decreases fragments
  {
    var s := h.streams[id];
    if fragments != [] {
      var e := H.ProcessQueue(H.Queueing(h, id, fragments[0]));
      FragmentQueued(h, id, fragments[0]);
      FragmentsQueued(e, id, fragments[1..]);
      assert fragments == [fragments[0]] + fragments[1..];
      Associative(s.frags, [fragments[0]], fragments[1..]);
    } else {
      assert s.frags + [] == s.frags;
    }
  }

  /** A write never meets a closed stream unless its Close is queued and can be
      sent at once, as it can only be when the host has stalled. */
  lemma {:induction false} WriteStaysOpen(h: H.Host, id: nat, fragments: seq<Bytes>)
    requires id in h.streams && (CloseRequested(h, id) ==> !H.MaySend(h))
    ensures H.StaysOpen(h, id, fragments)
    decreases fragments
  {
    if fragments != [] {
      var q := H.Queueing(h, id, fragments[0]);
      var e := H.ProcessQueue(q);
      if !CloseRequested(h, id) {
        FragmentQueued(h, id, fragments[0]);
      } else {
        assert h.queue != [] && e == q;
      }
      WriteStaysOpen(e, id, fragments[1..]);
    }
  }

  lemma WritePacketHistories(h: H.Host, id: nat, packet: Packet)
    requires H.HostOk(h) && HistoriesOk(h)
    requires id in h.streams && !CloseRequested(h, id) && IsPacket(packet)
    ensures HistoriesOk(H.WritePacket(h, id, packet))
  {
    var fragments := Fragments(Wrap(packet));
    FragmentsQueued(h, id, fragments);
    var e := H.EnqueueFragments(h, id, fragments);
    var s, t := h.streams[id], Written(e.streams[id], packet);
    assert t == Written(s, packet).(frags := s.frags + fragments);
    assert HistoryOk(t);
    forall other | other in e.streams && other != id
      ensures HistoryOk(e.streams[other])
    {
      assert other in e.streams - {id};
    }
  }

  lemma NextHistories(j: Joint, step: Step)
    requires H.HostOk(j.host) && HistoriesOk(j.host) && Enabled(j, step)
    ensures HistoriesOk(Next(j, step).host)
  {
    match step
    case Connect => ProcessQueueHistories(j.host.(queue := j.host.queue + [ConnectMessage()]));
    case ToHost => HandleHistories(j.host, j.dev.out[0]);
    case CreateStream(tag) => ProcessQueueHistories(H.Requesting(j.host, tag));
    case WritePacket(id, packet) => WritePacketHistories(j.host, id, packet);
    case RequestClose(id) =>
      var s := j.host.streams[id];
      ProcessQueueHistories(j.host.(queue := j.host.queue + [CloseMessage(s.host, s.dev)]));
    case _ =>
  }

  // ---------- The wires ----------

  ghost predicate ToDeviceOk(s: seq<Message>) {
    forall m :: m in s ==> D.Supported(m) && (m.command == Command.Connect ==> VersionMatches(m.data))
  }

  /** `e` has sent more than `h`, all of it supported by the device. */
  ghost predicate Sends(h: H.Host, e: H.Host) {
    && h.out <= e.out
    && (ToDeviceOk(h.out) ==> ToDeviceOk(e.out))
  }

  ghost predicate QueueOk(h: H.Host) {
    forall m :: m in h.queue ==>
      m.command == Open || m.command == Write || m.command == Close || m == ConnectMessage()
  }

  lemma ProcessQueueSends(h: H.Host)
    requires QueueOk(h)
    ensures Sends(h, H.ProcessQueue(h)) && QueueOk(H.ProcessQueue(h))
  {
    if H.MaySend(h) {
      assert h.queue[0] in h.queue;
      assert forall m :: m in h.queue[1..] ==> m in h.queue;
    }
  }

  lemma ResetSends(h: H.Host, reconnect: bool)
    ensures Sends(h, H.Reset(h, reconnect)) && QueueOk(H.Reset(h, reconnect))
  {
    ProcessQueueSends(H.Cleared(h).(queue := H.Cleared(h).queue + [ConnectMessage()]));
  }

  lemma HandleWriteSends(h: H.Host, m: Message)
    requires QueueOk(h)
    ensures Sends(h, H.HandleWrite(h, m)) && QueueOk(H.HandleWrite(h, m))
  {
    var c := h.(queue := h.queue + [CloseMessage(m.host, m.dev)]);
    if m.host !in h.streams {
      ProcessQueueSends(c);
    } else {
      assert H.HandleWrite(h, m).out == h.out + [OkMessage(m.host, m.dev)];
    }
  }

  lemma DispatchSends(h: H.Host, m: Message)
    requires QueueOk(h)
    ensures Sends(h, H.Dispatch(h, m)) && QueueOk(H.Dispatch(h, m))
  {
    ResetSends(h, true);
    ResetSends(h, false);
    HandleWriteSends(h, m);
    assert Sends(h, h);
  }

  lemma HandleSends(h: H.Host, m: Message)
    requires QueueOk(h)
    ensures Sends(h, H.Handle(h, m))
  {
    if m.command == Invalid {
      ResetSends(h, false);
    } else {
      DispatchSends(h, m);
      ProcessQueueSends(H.Dispatch(h, m));
    }
  }

  lemma {:induction false} FragmentsSend(h: H.Host, id: nat, fragments: seq<Bytes>)
    requires QueueOk(h)
    ensures Sends(h, H.EnqueueFragments(h, id, fragments))
    decreases fragments
  {
    if fragments != [] && id in h.streams {
      var q := H.Queueing(h, id, fragments[0]);
      ProcessQueueSends(q);
      FragmentsSend(H.ProcessQueue(q), id, fragments[1..]);
    }
  }

  lemma {:induction false} ClosesAreCloses(streams: map<nat, StreamState>, order: seq<nat>)
    requires forall id :: id in order ==> id in streams
    ensures forall m :: m in H.Closes(streams, order) ==> m.command == Close
    decreases order
  {
    if order != [] {
      ClosesAreCloses(streams, order[1..]);
    }
  }

  lemma HostWires(j: Joint, step: Step)
    requires H.HostOk(j.host) && WiresOk(j) && Enabled(j, step) && !step.ToDevice?
    ensures Sends(j.host, Next(j, step).host)
  {
    var h := j.host;
    match step
    case Connect => ProcessQueueSends(h.(queue := h.queue + [ConnectMessage()]));
    case ToHost => HandleSends(h, j.dev.out[0]);
    case CreateStream(tag) => ProcessQueueSends(H.Requesting(h, tag));
    case WritePacket(id, packet) => FragmentsSend(h, id, Fragments(Wrap(packet)));
    case RequestClose(id) =>
      ProcessQueueSends(h.(queue := h.queue + [CloseMessage(h.streams[id].host, h.streams[id].dev)]));
    case CloseAll(order) => ClosesAreCloses(h.streams, order);
    case _ =>
  }

  lemma EffectOut(d: D.Device, m: Message, answer: Option<Packet>)
    ensures D.Effect(d, m, answer).out == d.out
  {
  }

  lemma ResetQueue(d: D.Device, m: Message, answer: Option<Packet>)
    requires m.command == Command.Connect || d.phase == D.Disconnected
    ensures forall x :: x in D.Effect(d, m, answer).queue ==> H.Supported(x)
  {
    var e := D.Effect(d, m, answer);
    assert |e.queue| == 1 && (e.queue[0].command == Command.Connect ==> e.queue[0] == ConnectMessage());
    assert e.queue[0].command == Command.Connect || e.queue[0].command == Refuse;
    assert forall x :: x in e.queue ==> x == e.queue[0];
  }

  lemma EffectQueue(d: D.Device, m: Message, answer: Option<Packet>)
    requires D.DeviceOk(d) && D.Supported(m)
    ensures forall x :: x in D.Effect(d, m, answer).queue ==> H.Supported(x)
  {
    if m.command == Command.Connect || d.phase == D.Disconnected {
      ResetQueue(d, m, answer);
    } else {
      D.EffectOk(d, m, answer);
      assert forall x :: D.QueuedOk(x) ==> H.Supported(x);
    }
  }

  lemma DeviceWires(d: D.Device, m: Message, answer: Option<Packet>)
    requires D.DeviceOk(d) && D.Supported(m) && forall x :: x in d.out ==> H.Supported(x)
    ensures d.out <= D.Handle(d, m, answer).out
    ensures forall x :: x in D.Handle(d, m, answer).out ==> H.Supported(x)
  {
    var e := D.Effect(d, m, answer);
    EffectOut(d, m, answer);
    EffectQueue(d, m, answer);
    D.DrainKeepsOrder(e);
    var f := D.Drain(e);
    forall x | x in f.out
      ensures H.Supported(x)
    {
      assert x in f.out + f.queue;
    }
  }

  lemma NextWires(j: Joint, step: Step)
    requires H.HostOk(j.host) && D.DeviceOk(j.dev) && WiresOk(j) && Enabled(j, step)
    ensures WiresOk(Next(j, step))
  {
    if step.ToDevice? {
      DeviceWires(j.dev, j.host.out[0], step.answer);
    } else {
      HostWires(j, step);
    }
  }
}
