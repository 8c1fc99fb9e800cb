/** Runs from power-on that reach what the theorems do not exclude: a host that
    idles with messages queued, and a device with two unanswered Writes. */
module Witnesses {
  import opened Protocol
  import opened Streams
  import opened Joint
  import opened Theorems
  import H = HostMachine
  import D = DeviceMachine

  /** One more step of a run. */
  lemma Continue(steps: seq<Step>, j: Joint, step: Step) returns (more: seq<Step>)
    requires Reachable(POWER_ON, steps, j) && Enabled(j, step)
    ensures more == steps + [step] && Reachable(POWER_ON, more, Next(j, step))
  {
    more := steps + [step];
    assert [step][1..] == [];
    RunsConcatenate(POWER_ON, steps, [step]);
  }

  /** A session in which nothing is going on. */
  predicate Quiet(j: Joint) {
    && j.host.phase == H.Connected && j.host.queue == [] && j.host.out == [] && j.host.requests == {}
    && j.dev.phase == D.Connected && j.dev.queue == [] && j.dev.out == []
    && !j.host.fault && !j.dev.fault
  }

  lemma SendsAtOnce(h: H.Host, m: Message)
    requires h.phase == H.Connected && h.queue == [] && (m.command == Open || m.command == Write)
    ensures H.Enqueue(h, m) == H.Send(h, m).(phase := H.Waiting)
  {
    assert (h.queue + [m])[0] == m && (h.queue + [m])[1..] == [];
  }

  lemma DeviceSendsAtOnce(d: D.Device, m: Message)
    requires d.phase == D.Connected && d.queue == [m] && m.command == Ok
    ensures D.Drain(d) == d.(queue := [], out := d.out + [m])
  {
    assert d.queue[1..] == [];
  }

  function Greeted(): Joint {
    Joint(H.INITIAL.(phase := H.Connected, log := [ConnectMessage()]), D.INITIAL.(phase := D.Connected))
  }

  /** Connect and its reply. */
  lemma Handshake() returns (steps: seq<Step>)
    ensures Reachable(POWER_ON, steps, Greeted())
  {
    assert IsRun(POWER_ON, []) && After(POWER_ON, []) == POWER_ON;
    assert [] + [ConnectMessage()] == [ConnectMessage()];
    steps := Continue([], POWER_ON, Step.Connect);
    var a := Next(POWER_ON, Step.Connect);
    assert a.host == H.INITIAL.(phase := H.WaitingForConnection, out := [ConnectMessage()], log := [ConnectMessage()]);
    steps := Continue(steps, a, ToDevice(None));
    var b := Next(a, ToDevice(None));
    D.DrainOne(D.Effect(a.dev, a.host.out[0], None), ConnectMessage());
    assert b.dev == D.INITIAL.(phase := D.Connected, out := [ConnectMessage()]);
    steps := Continue(steps, b, ToHost);
    assert Next(b, ToHost) == Greeted();
  }

  /** The host has asked for a stream, and the device has answered. */
  function Asked(j: Joint, tag: Bytes): Joint {
    var m := Message(Open, j.host.nextId, 0, tag);
    Joint(
      j.host.(phase := H.Waiting, nextId := j.host.nextId + 1, requests := {j.host.nextId}, log := j.host.log + [m]),
      D.Opened(j.dev, j.host.nextId, tag).(queue := [], out := [OkMessage(j.host.nextId, j.dev.nextId)]))
  }

  lemma AskForStream(steps: seq<Step>, j: Joint, tag: Bytes) returns (more: seq<Step>)
    requires Reachable(POWER_ON, steps, j) && Quiet(j) && |tag| <= MAX_PAYLOAD
    ensures Reachable(POWER_ON, more, Asked(j, tag))
  {
    var m, ok := Message(Open, j.host.nextId, 0, tag), OkMessage(j.host.nextId, j.dev.nextId);
    more := Continue(steps, j, CreateStream(tag));
    var a := Next(j, CreateStream(tag));
    SendsAtOnce(j.host.(nextId := j.host.nextId + 1, requests := {j.host.nextId}), m);
    assert a.host.out == [m] && a.host.requests == {j.host.nextId};
    more := Continue(more, a, ToDevice(None));
    assert D.Opened(j.dev, m.host, tag).queue == [ok];
    DeviceSendsAtOnce(D.Opened(j.dev, m.host, tag), ok);
    assert Next(a, ToDevice(None)) == Asked(j, tag);
  }

  /** The host has taken the answer. */
  function Given(j: Joint, tag: Bytes): Joint {
    var a := Asked(j, tag);
    Joint(
      a.host.(phase := H.Connected, requests := {},
        streams := j.host.streams[j.host.nextId := NewStream(j.host.nextId, j.dev.nextId)]),
      a.dev.(out := []))
  }

  lemma GetStream(steps: seq<Step>, j: Joint, tag: Bytes) returns (more: seq<Step>)
    requires Reachable(POWER_ON, steps, j) && Quiet(j) && |tag| <= MAX_PAYLOAD
    ensures Reachable(POWER_ON, more, Given(j, tag)) && Quiet(Given(j, tag))
  {
    more := AskForStream(steps, j, tag);
    more := Continue(more, Asked(j, tag), ToHost);
    assert Next(Asked(j, tag), ToHost) == Given(j, tag);
  }

  /** The host stalls: while the Open of stream 2 is unanswered, the application
      closes stream 1 and asks for stream 3. The Ok lets the host send the Close,
      after which it sits connected, with nothing in flight and the Open queued. */
  lemma HostStalls() returns (steps: seq<Step>, j: Joint)
    ensures Reachable(POWER_ON, steps, j) && Established(j) && WiresEmpty(j)
    ensures j.host.phase == H.Connected && j.host.queue == [Message(Open, 3, 0, [])] && j.host.requests == {3}
  {
    steps := Handshake();
    steps := GetStream(steps, Greeted(), []);
    var a := Given(Greeted(), []);
    assert a.host.streams == map[1 := NewStream(1, 1)] && a.host.nextId == 2 && a.dev.nextId == 2;
    steps := AskForStream(steps, a, []);
    var d: Joint;
    steps, d := CloseAndAsk(steps, Asked(a, []));
    steps, j := CloseOvertakes(steps, d);
  }

  /** While stream 2 is asked for, the close of stream 1 and an Open are queued. */
  lemma CloseAndAsk(steps: seq<Step>, b: Joint) returns (more: seq<Step>, d: Joint)
    requires Reachable(POWER_ON, steps, b)
    requires b.host.phase == H.Waiting && b.host.queue == [] && b.host.requests == {2} && b.host.nextId == 3
    requires 1 in b.host.streams && b.host.streams[1].host == 1 && b.host.streams[1].dev == 1
    ensures Reachable(POWER_ON, more, d) && d.dev == b.dev
    ensures d.host == b.host.(
      queue := [CloseMessage(1, 1), Message(Open, 3, 0, [])], requests := {2, 3}, nextId := 4)
  {
    var close, open := CloseMessage(1, 1), Message(Open, 3, 0, []);
    more := Continue(steps, b, RequestClose(1));
    var c := Next(b, RequestClose(1));
    assert c == b.(host := b.host.(queue := [close]));
    more := Continue(more, c, CreateStream([]));
    d := Next(c, CreateStream([]));
    assert c.host.queue + [open] == [close, open] && {2} + {3} == {2, 3};
  }

  /** The Ok for stream 2 makes the host send the Close of stream 1 and stop. */
  lemma CloseOvertakes(steps: seq<Step>, d: Joint) returns (more: seq<Step>, j: Joint)
    requires Reachable(POWER_ON, steps, d)
    requires d.host.phase == H.Waiting && d.host.requests == {2, 3} && d.host.out == []
    requires d.host.queue == [CloseMessage(1, 1), Message(Open, 3, 0, [])]
    requires 1 in d.host.streams
    requires d.dev.phase == D.Connected && d.dev.queue == [] && d.dev.out == [OkMessage(2, 2)]
    ensures Reachable(POWER_ON, more, j) && Established(j) && WiresEmpty(j)
    ensures j.host.phase == H.Connected && j.host.queue == [Message(Open, 3, 0, [])] && j.host.requests == {3}
  {
    var close := CloseMessage(1, 1);
    SendsClose(d.host);
    more := Continue(steps, d, ToHost);
    var e := Next(d, ToHost);
    more := Continue(more, e, ToDevice(None));
    j := Next(e, ToDevice(None));
    assert D.Drain(D.Effect(e.dev, close, None)) == D.Effect(e.dev, close, None);
  }

  lemma SendsClose(h: H.Host)
    requires h.phase == H.Waiting && h.requests == {2, 3} && h.out == [] && 1 in h.streams
    requires h.queue == [CloseMessage(1, 1), Message(Open, 3, 0, [])]
    ensures var e := H.Handle(h, OkMessage(2, 2));
      && e.phase == H.Connected && e.queue == [Message(Open, 3, 0, [])]
      && e.out == [CloseMessage(1, 1)] && e.requests == {3}
  {
    var open := Message(Open, 3, 0, []);
    assert h.queue[1..] == [open];
    assert [open][1..] == [] && WithoutHost([open], 1) == [open];
  }

  const ECHO_TAG: Bytes := [0, 0, 0, 1]
  const PACKET: Packet := [7]

  lemma OnePacket()
    ensures Wrap(PACKET) == [0, 0, 0, 1, 7] && Fragments(Wrap(PACKET)) == [Wrap(PACKET)]
    ensures Feed(IDLE, Wrap(PACKET)) == (IDLE, Some(PACKET))
  {
    var data := Wrap(PACKET);
    assert data == [0, 0, 0, 1, 7];
    assert data[..5] == data && data[5..] == [];
    assert Fragments(data[5..]) == [];
    assert Mid(data, 4) == PACKET;
  }

  /** The host can write to stream 1, and the device will echo at once. */
  predicate CanEcho(j: Joint) {
    && j.host.phase == H.Connected && j.host.queue == [] && j.host.out == []
    && 1 in j.host.streams && j.host.streams[1].host == 1 && j.host.streams[1].dev == 1
    && j.dev.phase == D.Connected && j.dev.queue == []
    && 1 in j.dev.streams && j.dev.streams[1].host == 1 && j.dev.streams[1].dev == 1
    && j.dev.streams[1].assembly == IDLE && 1 in j.dev.executors && j.dev.executors[1] == D.Echo
  }

  const WRITE: Message := Message(Write, 1, 1, Wrap(PACKET))

  lemma HostWrites(h: H.Host)
    requires h.phase == H.Connected && h.queue == []
    requires 1 in h.streams && h.streams[1].host == 1 && h.streams[1].dev == 1
    ensures var e := H.WritePacket(h, 1, PACKET);
      && e == H.Send(h, WRITE).(phase := H.Waiting, streams := e.streams)
      && e.streams.Keys == h.streams.Keys && e.streams[1].dev == 1 && e.streams[1].host == 1
      && forall id :: id in h.streams && id != 1 ==> e.streams[id] == h.streams[id]
  {
    OnePacket();
    var fragments := Fragments(Wrap(PACKET));
    var q := H.Queueing(h, 1, fragments[0]);
    assert q.queue == [WRITE] && q.queue[1..] == [] && fragments[1..] == [];
    assert H.EnqueueFragments(h, 1, fragments) == H.ProcessQueue(q);
  }

  lemma DeviceEchoes(d: D.Device)
    requires d.phase == D.Connected && d.queue == []
    requires 1 in d.streams && d.streams[1].host == 1 && d.streams[1].dev == 1
    requires d.streams[1].assembly == IDLE && 1 in d.executors && d.executors[1] == D.Echo
    ensures var e := D.Handle(d, WRITE, None);
      && e == d.(phase := D.Waiting, out := d.out + [OkMessage(1, 1), WRITE], streams := e.streams)
      && e.streams.Keys == d.streams.Keys && e.streams[1].assembly == IDLE
      && e.streams[1].host == 1 && e.streams[1].dev == 1
  {
    OnePacket();
    var e := D.Effect(d, WRITE, None);
    assert D.Response(d, WRITE, None) == Some(PACKET);
    assert WriteMessages(1, 1, [Wrap(PACKET)]) == [WRITE];
    assert e.queue == [OkMessage(1, 1), WRITE];
    var f := D.SendHead(e);
    assert f.queue == [WRITE] && f.out == d.out + [OkMessage(1, 1)];
    var g := D.SendHead(f);
    assert g.queue == [] && g.out == d.out + [OkMessage(1, 1), WRITE];
    assert D.Drain(e) == D.Drain(f) == g.(phase := D.Waiting);
  }

  /** The host writes a packet, and the device acknowledges and echoes it. */
  lemma WriteAndEcho(steps: seq<Step>, j: Joint) returns (more: seq<Step>, k: Joint)
    requires Reachable(POWER_ON, steps, j) && CanEcho(j)
    ensures Reachable(POWER_ON, more, k)
    ensures k.host == j.host.(phase := H.Waiting, streams := k.host.streams, log := k.host.log)
    ensures k.host.streams.Keys == j.host.streams.Keys && k.host.streams[1].host == 1 && k.host.streams[1].dev == 1
    ensures forall id :: id in j.host.streams && id != 1 ==> k.host.streams[id] == j.host.streams[id]
    ensures k.dev.phase == D.Waiting && k.dev.queue == [] && k.dev.out == j.dev.out + [OkMessage(1, 1), WRITE]
    ensures k.dev.streams.Keys == j.dev.streams.Keys && k.dev.executors == j.dev.executors
    ensures k.dev.streams[1].host == 1 && k.dev.streams[1].dev == 1 && k.dev.streams[1].assembly == IDLE
    ensures k.dev.released == j.dev.released
  {
    HostWrites(j.host);
    more := Continue(steps, j, WritePacket(1, PACKET));
    var a := Next(j, WritePacket(1, PACKET));
    assert a.host.out == [WRITE];
    more := Continue(more, a, ToDevice(None));
    DeviceEchoes(j.dev);
    k := Next(a, ToDevice(None));
  }

  /** The Ok of a Write reaches the host, and the host closes stream 2 while the
      device still waits for the Ok of its echo. */
  lemma CloseReleases(steps: seq<Step>, j: Joint) returns (more: seq<Step>, k: Joint)
    requires Reachable(POWER_ON, steps, j)
    requires j.host.phase == H.Waiting && j.host.queue == [] && j.host.out == [] && j.host.requests == {}
    requires 1 in j.host.streams && j.host.streams[1].host == 1 && j.host.streams[1].dev == 1
    requires 2 in j.host.streams && j.host.streams[2].host == 2 && j.host.streams[2].dev == 2
    requires j.dev.phase == D.Waiting && j.dev.queue == [] && j.dev.out == [OkMessage(1, 1), WRITE]
    requires 1 in j.dev.streams && j.dev.streams[1].host == 1 && j.dev.streams[1].dev == 1
    requires j.dev.streams[1].assembly == IDLE && 1 in j.dev.executors && j.dev.executors[1] == D.Echo
    ensures Reachable(POWER_ON, more, k) && CanEcho(k)
    ensures k.dev.out == [WRITE] && k.dev.released == j.dev.released + 1
  {
    more := Continue(steps, j, ToHost);
    var a := Next(j, ToHost);
    assert a == Joint(j.host.(phase := H.Connected), j.dev.(out := [WRITE]));
    more, k := CloseArrives(more, a);
  }

  lemma CloseArrives(steps: seq<Step>, a: Joint) returns (more: seq<Step>, k: Joint)
    requires Reachable(POWER_ON, steps, a)
    requires a.host.phase == H.Connected && a.host.queue == [] && a.host.out == []
    requires 2 in a.host.streams && a.host.streams[2].host == 2 && a.host.streams[2].dev == 2
    requires a.dev.phase == D.Waiting && a.dev.queue == []
    ensures Reachable(POWER_ON, more, k)
    ensures k.host == a.host.(streams := a.host.streams - {2}, log := k.host.log)
    ensures k.dev == D.CloseStream(a.dev.(phase := D.Connected, released := a.dev.released + 1), 2)
  {
    var close := CloseMessage(2, 2);
    H.CloseAtOnce(a.host, 2);
    more := Continue(steps, a, RequestClose(2));
    var b := Next(a, RequestClose(2));
    assert b.host.out == [close];
    more := Continue(more, b, ToDevice(None));
    k := Next(b, ToDevice(None));
    assert k.host.out == [] && D.Drain(D.Effect(b.dev, close, None)) == D.Effect(b.dev, close, None);
  }

  /** More than one Write of the device can be under way, as many as the bound of
      the window allows: two after one Close has released it. */
  lemma TwoUnansweredWrites() returns (steps: seq<Step>, j: Joint)
    ensures Reachable(POWER_ON, steps, j) && Established(j)
    ensures Count(j.dev.out, {Write}) + Count(j.host.out, {Ok}) == 2
    ensures j.dev.phase == D.Waiting && j.dev.released == 1
  {
    steps := Handshake();
    steps := GetStream(steps, Greeted(), ECHO_TAG);
    var a := Given(Greeted(), ECHO_TAG);
    steps := GetStream(steps, a, ECHO_TAG);
    var b := Given(a, ECHO_TAG);
    assert ReadUint32(ECHO_TAG) == 1;
    assert CanEcho(b) && b.host.streams[2] == NewStream(2, 2);
    steps, j := EchoTwice(steps, b);
  }

  lemma EchoTwice(steps: seq<Step>, b: Joint) returns (more: seq<Step>, j: Joint)
    requires Reachable(POWER_ON, steps, b) && CanEcho(b) && b.host.requests == {} && b.dev.out == []
    requires 2 in b.host.streams && b.host.streams[2].host == 2 && b.host.streams[2].dev == 2
    ensures Reachable(POWER_ON, more, j) && Established(j)
    ensures Count(j.dev.out, {Write}) + Count(j.host.out, {Ok}) == 2
    ensures j.dev.phase == D.Waiting && j.dev.released == b.dev.released + 1
  {
    var ok := OkMessage(1, 1);
    more, j := WriteAndEcho(steps, b);
    assert j.dev.out == [ok, WRITE];
    more, j := CloseReleases(more, j);
    more, j := WriteAndEcho(more, j);
    assert j.dev.out == [WRITE, ok, WRITE];
    CountThree(WRITE, ok, WRITE, {Write});
    CountThree(WRITE, ok, WRITE, {Command.Connect});
  }

  lemma CountThree(a: Message, b: Message, c: Message, kinds: set<Command>)
    ensures Count([a, b, c], kinds) == Count([a], kinds) + Count([b], kinds) + Count([c], kinds)
  {
    assert [a, b, c] == [a] + ([b] + [c]);
    CountAppend([a], [b] + [c], kinds);
    CountAppend([b], [c], kinds);
  }
}
