/** What the two ends send fits the wire format, so that the wires of the joint
    system can be carried by the transfers below them. */
module Traffic {
  import opened Protocol
  import opened Streams
  import opened Joint
  import opened Wire
  import H = HostMachine
  import D = DeviceMachine

  predicate Fits(ms: seq<Message>) {
    forall m :: m in ms ==> |m.data| <= MAX_PAYLOAD
  }

  predicate HostFits(h: H.Host) {
    Fits(h.out) && Fits(h.queue)
  }

  predicate DeviceFits(d: D.Device) {
    Fits(d.out) && Fits(d.queue)
  }

  lemma ProcessQueueFits(h: H.Host)
    requires HostFits(h)
    ensures HostFits(H.ProcessQueue(h))
  {
    if H.MaySend(h) {
      assert h.queue[0] in h.queue;
      assert forall m :: m in h.queue[1..] ==> m in h.queue;
    }
  }

  lemma ResetFits(h: H.Host, reconnect: bool)
    requires HostFits(h)
    ensures HostFits(H.Reset(h, reconnect))
  {
    ProcessQueueFits(H.Cleared(h).(queue := H.Cleared(h).queue + [ConnectMessage()]));
    assert |ConnectMessage().data| == 4;
  }

  lemma HandleFits(h: H.Host, m: Message)
    requires HostFits(h)
    ensures HostFits(H.Handle(h, m))
  {
    ResetFits(h, true);
    ResetFits(h, false);
    if m.command != Invalid {
      ProcessQueueFits(h.(queue := h.queue + [CloseMessage(m.host, m.dev)]));
      assert HostFits(H.Dispatch(h, m));
      ProcessQueueFits(H.Dispatch(h, m));
    }
  }

  lemma {:induction false} FragmentsFit(h: H.Host, id: nat, fragments: seq<Bytes>)
    requires HostFits(h) && forall f :: f in fragments ==> |f| <= MAX_PAYLOAD
    ensures HostFits(H.EnqueueFragments(h, id, fragments))
    decreases fragments
  {
    if fragments != [] && id in h.streams {
      assert fragments[0] in fragments;
      var q := H.Queueing(h, id, fragments[0]);
      ProcessQueueFits(q);
      FragmentsFit(H.ProcessQueue(q), id, fragments[1..]);
    }
  }

  lemma {:induction false} ClosesFit(streams: map<nat, StreamState>, order: seq<nat>)
    requires forall id :: id in order ==> id in streams
    ensures Fits(H.Closes(streams, order))
    decreases order
  {
    if order != [] {
      ClosesFit(streams, order[1..]);
    }
  }

  lemma ReceivedFits(d: D.Device, m: Message, answer: Option<Packet>)
    requires DeviceFits(d) && m.dev in d.streams
    ensures DeviceFits(D.ReceivedWrite(d, m, answer))
  {
    var s, response := d.streams[m.dev], D.Response(d, m, answer);
    if response.Some? {
      FragmentsAreExact(Wrap(response.value));
    }
    assert Fits(WriteMessages(s.host, s.dev, D.ResponseFragments(response)));
  }

  lemma AcceptedFits(d: D.Device, data: Bytes)
    requires DeviceFits(d)
    ensures DeviceFits(D.Accepted(d, data)) && DeviceFits(D.Refused(d, NotConnected))
  {
  }

  lemma OpenedFits(d: D.Device, m: Message)
    requires DeviceFits(d)
    ensures DeviceFits(D.Opened(d, m.host, m.data)) && DeviceFits(D.Queued(d, [CloseMessage(m.host, m.dev)]))
  {
  }

  lemma ClosedFits(d: D.Device, e: D.Device, id: nat)
    requires DeviceFits(d) && e.queue == d.queue && e.out == d.out
    ensures DeviceFits(D.CloseStream(e, id))
  {
  }

  lemma EffectFits(d: D.Device, m: Message, answer: Option<Packet>)
    requires DeviceFits(d)
    ensures DeviceFits(D.Effect(d, m, answer))
  {
    if m.command == Command.Connect || d.phase == D.Disconnected {
      AcceptedFits(d, m.data);
    } else {
      match m.command
      case Open => OpenedFits(d, m);
      case Write =>
        if m.dev in d.streams {
          ReceivedFits(d, m, answer);
        } else {
          OpenedFits(d, m);
        }
      case Close =>
        var released := if d.phase == D.Waiting then d.released + 1 else d.released;
        ClosedFits(d, d.(phase := D.Connected, released := released), m.dev);
      case _ =>
    }
  }

  lemma DeviceHandleFits(d: D.Device, m: Message, answer: Option<Packet>)
    requires DeviceFits(d)
    ensures DeviceFits(D.Handle(d, m, answer))
  {
    var e := D.Effect(d, m, answer);
    EffectFits(d, m, answer);
    D.DrainKeepsOrder(e);
    assert forall x :: x in D.Drain(e).out || x in D.Drain(e).queue ==> x in e.out + e.queue;
  }

  lemma NextFits(j: Joint, step: Step)
    requires HostFits(j.host) && DeviceFits(j.dev) && Enabled(j, step)
    ensures HostFits(Next(j, step).host) && DeviceFits(Next(j, step).dev)
  {
    var h := j.host;
    match step
    case Connect =>
      assert |ConnectMessage().data| == 4;
      ProcessQueueFits(h.(queue := h.queue + [ConnectMessage()]));
    case ToDevice(answer) =>
      DeviceHandleFits(j.dev, h.out[0], answer);
    case ToHost => HandleFits(h, j.dev.out[0]);
    case CreateStream(tag) => ProcessQueueFits(H.Requesting(h, tag));
    case WritePacket(id, packet) =>
      FragmentsAreExact(Wrap(packet));
      FragmentsFit(h, id, Fragments(Wrap(packet)));
    case RequestClose(id) =>
      ProcessQueueFits(h.(queue := h.queue + [CloseMessage(h.streams[id].host, h.streams[id].dev)]));
    case CloseAll(order) => ClosesFit(h.streams, order);
  }

  /** No message ever exceeds the maximal payload. */
  lemma {:induction false} TrafficFits(j: Joint, steps: seq<Step>)
    requires HostFits(j.host) && DeviceFits(j.dev) && IsRun(j, steps)
    ensures HostFits(After(j, steps).host) && DeviceFits(After(j, steps).dev)
    decreases |steps|
  {
    if steps != [] {
      NextFits(j, steps[0]);
      TrafficFits(Next(j, steps[0]), steps[1..]);
    }
  }

  /** `os` is a way of sending `wire`: it fixes which empty payloads are null. */
  predicate SendsAs(os: seq<Outgoing>, wire: seq<Message>) {
    Messages(os) == wire && forall o :: o in os ==> o.isNull ==> o.message.data == []
  }

  predicate IdsFit(ms: seq<Message>) {
    forall m :: m in ms ==> m.host < TWO_32 && m.dev < TWO_32
  }

  lemma AllAreSendable(os: seq<Outgoing>, wire: seq<Message>)
    requires SendsAs(os, wire) && Fits(wire) && IdsFit(wire)
    ensures AllSendable(os)
  {
    forall o | o in os
      ensures Sendable(o)
    {
      var i :| 0 <= i < |os| && os[i] == o;
      MessagesAt(os, i);
      assert wire[i] in wire;
    }
  }

  /** The layers composed: whatever run the protocol has made, the messages on
      either wire come out of the transfers that carry them exactly as they went
      in, and in order. */
  lemma WiresAreCarried(steps: seq<Step>, j: Joint, up: seq<Outgoing>, down: seq<Outgoing>)
    requires IsRun(POWER_ON, steps) && j == After(POWER_ON, steps)
    requires SendsAs(up, j.host.out) && IdsFit(j.host.out)
    requires SendsAs(down, j.dev.out) && IdsFit(j.dev.out)
    ensures AllSendable(up) && ReadAll(SentToDevice(up)) == j.host.out
    ensures AllSendable(down) && ReceiveAll(SentToHost(down)) == j.dev.out
  {
    TrafficFits(POWER_ON, steps);
    AllAreSendable(up, j.host.out);
    AllAreSendable(down, j.dev.out);
    HostToDevice(up);
    DeviceToHost(down);
  }
}
