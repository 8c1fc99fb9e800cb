/** The synchronisation invariant holds over whole runs. */
module SyncSteps {
  import opened Protocol
  import opened Streams
  import opened Joint
  import opened Sync
  import H = HostMachine
  import D = DeviceMachine
  import Session
  import HostSteps
  import HostReceives
  import DeviceReceives

  /** The device as a Connect leaves it. */
  predicate Fresh(d: D.Device) {
    d.phase == D.Connected && d.queue == [] && d.streams == map[] && d.released == 0
  }

  predicate LastIsConnect(s: seq<Message>) {
    s != [] && s[|s| - 1].command == Command.Connect
  }

  predicate ConnectInFlight(j: Joint) {
    Count(j.host.out, {Command.Connect}) > 0 || Count(j.dev.out, {Command.Connect}) > 0
  }

  /** The host has sent a Connect last, and either it is still on its way or the
      device has sent its reply last and done nothing since. */
  predicate Awaiting(j: Joint) {
    if j.host.out != [] then LastIsConnect(j.host.out)
    else LastIsConnect(j.dev.out) && Fresh(j.dev)
  }

  ghost predicate Synchronised(j: Joint) {
    && (j.host.phase == H.WaitingForConnection ==> Awaiting(j))
    && (Session.InSession(j.host) ==> ConnectInFlight(j) || Session.Invariant(j.host, j.dev))
  }

  ghost predicate Invariant(j: Joint) {
    && H.HostOk(j.host)
    && D.DeviceOk(j.dev)
    && WiresOk(j)
    && HistoriesOk(j.host)
    && Synchronised(j)
  }

  // ---------- Establishing a session ----------

  /** The host takes the reply to its last Connect. */
  lemma SessionStarts(h: H.Host, d: D.Device)
    requires H.HostOk(h) && h.phase == H.WaitingForConnection
    requires h.out == [] && d.out == [] && Fresh(d) && D.StreamsOk(d) && 1 <= d.nextId
    ensures Session.Invariant(h.(phase := H.Connected), d)
  {
    var e := h.(phase := H.Connected);
    assert Session.Up(e) == h.queue && Session.Down(d) == [];
    forall m | m in h.queue
      ensures Session.QueuedOk(e, d, m)
    {
      assert H.QueuedOk(h, m);
    }
  }

  lemma ConnectStays(s: seq<Message>, t: seq<Message>)
    requires s <= t && Count(s, {Command.Connect}) > 0
    ensures Count(t, {Command.Connect}) > 0
  {
    assert t == s + t[|s|..];
    CountAppend(s, t[|s|..], {Command.Connect});
  }

  lemma LastCounts(s: seq<Message>)
    requires LastIsConnect(s)
    ensures Count(s, {Command.Connect}) > 0
  {
    CountZero(s, {Command.Connect});
    assert s[|s| - 1] in s;
  }

  // ---------- A message for the host ----------

  /** WaitingForConnection takes a Connect: the session starts, or another
      Connect is still in flight. */
  lemma TakeReply(j: Joint)
    requires H.HostOk(j.host) && D.DeviceOk(j.dev) && Awaiting(j)
    requires j.host.phase == H.WaitingForConnection && j.dev.out != []
    requires j.dev.out[0].command == Command.Connect && VersionMatches(j.dev.out[0].data)
    ensures var k := Next(j, ToHost); Session.InSession(k.host) && Synchronised(k)
  {
    var h, d := j.host, j.dev.(out := j.dev.out[1..]);
    var c := h.(phase := H.Connected);
    var k := Next(j, ToHost);
    H.DispatchOk(h, j.dev.out[0]);
    H.ProcessQueueOk(c);
    assert k.host == H.ProcessQueue(c);
    if h.out != [] {
      LastCounts(h.out);
      HostKeepsConnects(c);
    } else if d.out != [] {
      assert LastIsConnect(d.out);
      LastCounts(d.out);
    } else {
      SessionStarts(h, d);
      HostSteps.ProcessQueueKeeps(c, d);
    }
  }

  lemma HostKeepsConnects(h: H.Host)
    requires Count(h.out, {Command.Connect}) > 0
    ensures Count(H.ProcessQueue(h).out, {Command.Connect}) > 0
  {
    ConnectStays(h.out, H.ProcessQueue(h).out);
  }

  /** A reset host awaits the reply to the Connect it has just sent. */
  lemma ResetAwaits(j: Joint, k: Joint, reconnect: bool)
    requires H.HostOk(j.host) && k.host == H.Reset(j.host, reconnect)
    ensures Synchronised(k)
  {
    H.ResetOk(j.host, reconnect);
  }

  predicate Resets(h: H.Host, m: Message) {
    match h.phase
    case Disconnected => m.command != Invalid
    case WaitingForConnection => m.command != Command.Connect
    case _ => m.command == Command.Connect || m.command == Refuse || m.command == Invalid
  }

  lemma ResetsHow(h: H.Host, m: Message)
    requires H.HostOk(h) && H.Supported(m) && Resets(h, m)
    ensures H.Handle(h, m) == H.Reset(h, true) || H.Handle(h, m) == H.Reset(h, false)
  {
    H.ResetOk(h, true);
    H.ResetOk(h, false);
  }

  /** In a doomed session the Connect in flight stays in flight. */
  lemma StaysDoomed(j: Joint)
    requires H.HostOk(j.host) && Session.InSession(j.host) && ConnectInFlight(j) && WiresOk(j)
    requires j.dev.out != [] && H.Supported(j.dev.out[0]) && !Resets(j.host, j.dev.out[0])
    ensures ConnectInFlight(Next(j, ToHost)) && Next(j, ToHost).host.phase != H.WaitingForConnection
  {
    var h, m := j.host, j.dev.out[0];
    HostWires(j, ToHost);
    if Count(h.out, {Command.Connect}) > 0 {
      ConnectStays(h.out, Next(j, ToHost).host.out);
    }
    H.HandleOk(h, m);
    NoNewHandshake(h, m);
  }

  lemma NoNewHandshake(h: H.Host, m: Message)
    requires H.HostOk(h) && Session.InSession(h) && !Resets(h, m) && m.command != Open
    ensures Session.InSession(H.Handle(h, m))
  {
    H.DispatchOk(h, m);
    InSessionStays(H.Dispatch(h, m));
    if m.host !in h.streams && m.command == Write {
      H.QueueingCloseOk(h, CloseMessage(m.host, m.dev));
      InSessionStays(h.(queue := h.queue + [CloseMessage(m.host, m.dev)]));
    }
  }

  lemma InSessionStays(h: H.Host)
    requires H.HostOk(h) && Session.InSession(h)
    ensures Session.InSession(H.ProcessQueue(h))
  {
    if H.MaySend(h) {
      assert h.queue[0] in h.queue && H.QueuedOk(h, h.queue[0]);
    }
  }

  lemma ToHostSynchronises(j: Joint)
    requires Invariant(j) && j.dev.out != []
    ensures Synchronised(Next(j, ToHost))
  {
    var h, m := j.host, j.dev.out[0];
    var k := Next(j, ToHost);
    assert m in j.dev.out;
    if Resets(h, m) {
      ResetsHow(h, m);
      ResetAwaits(j, k, H.Handle(h, m) == H.Reset(h, true));
    } else if h.phase == H.WaitingForConnection {
      TakeReply(j);
    } else if Session.InSession(h) {
      NoNewHandshake(h, m);
      if Session.Invariant(h, j.dev) {
        HostReceives.HandleKeeps(h, j.dev);
      } else {
        StaysDoomed(j);
      }
    }
  }

  // ---------- A message for the device ----------

  /** A Write that arrives in a session continues one of the host's packets: the
      assertions of receiveMessage hold, and what is emitted is a packet. */
  lemma ArrivalFits(h: H.Host, d: D.Device)
    requires HistoriesOk(h) && D.StreamsOk(d) && Session.Invariant(h, d)
    requires h.out != [] && h.out[0].command == Write
    ensures var m := h.out[0];
      && m.dev in d.streams && d.streams[m.dev].host == m.host
      && FitsPacket(d.streams[m.dev].assembly, m.data)
      && IsAnswer(Feed(d.streams[m.dev].assembly, m.data).1)
  {
    var m, f := h.out[0], DeviceReceives.TakenByDevice(h);
    DeviceReceives.WriteIsPaired(h, d);
    DeviceReceives.TakenUp(h);
    var s, t := h.streams[m.host], d.streams[m.dev];
    var rest := Payloads(Session.Up(f), m.dev);
    assert Stream(s.wrote) == t.raw + ([m.data] + rest);
    PrefixIsIntact(s.wrote, t.raw, [m.data] + rest);
    Associative(t.raw, [m.data], rest);
    PrefixIsIntact(s.wrote, t.raw + [m.data], rest);
    var r := Receive(t, m.data).0;
    assert InboxOk(r) && r.got <= s.wrote;
    var packet := Feed(t.assembly, m.data).1;
    if packet.Some? {
      assert packet.value == r.got[|r.got| - 1] && packet.value == s.wrote[|r.got| - 1];
    }
  }

  lemma WriteEffect(d: D.Device, m: Message, answer: Option<Packet>)
    requires m.dev in d.streams && m.dev in d.executors
    requires d.streams[m.dev].host == m.host && d.streams[m.dev].dev == m.dev
    ensures var e := D.ReceivedWrite(d, m, answer);
      && DeviceReceives.IsWritten(d, e, m, D.ResponseFragments(D.Response(d, m, answer)))
      && e.phase == d.phase && e.released == d.released
  {
    var s, response := d.streams[m.dev], D.Response(d, m, answer);
    HostReceives.ReceivedHistory(s, m.data);
    assert response.None? ==> s.frags + [] == s.frags;
  }

  lemma AnsweredPackets(d: D.Device, m: Message, answer: Option<Packet>)
    requires m.dev in d.streams && m.dev in d.executors
    requires ArePackets(d.streams[m.dev].wrote) && IsAnswer(answer)
    requires IsAnswer(Feed(d.streams[m.dev].assembly, m.data).1)
    ensures ArePackets(D.ReceivedWrite(d, m, answer).streams[m.dev].wrote)
  {
    assert IsAnswer(D.Response(d, m, answer));
  }

  lemma SessionWrite(h: H.Host, d: D.Device, answer: Option<Packet>)
    requires H.HostOk(h) && HistoriesOk(h) && D.StreamsOk(d) && Session.Invariant(h, d) && IsAnswer(answer)
    requires h.out != [] && h.out[0].command == Write
    ensures Session.Invariant(DeviceReceives.TakenByDevice(h), D.ReceivedWrite(d, h.out[0], answer))
  {
    var m := h.out[0];
    ArrivalFits(h, d);
    WriteEffect(d, m, answer);
    AnsweredPackets(d, m, answer);
    DeviceReceives.WriteKeeps(h, d, D.ReceivedWrite(d, m, answer), D.ResponseFragments(D.Response(d, m, answer)));
  }

  lemma SessionOpen(h: H.Host, d: D.Device, answer: Option<Packet>)
    requires Session.Invariant(h, d) && h.out != [] && h.out[0].command == Open
    ensures Session.Invariant(DeviceReceives.TakenByDevice(h), D.Effect(d, h.out[0], answer))
  {
    DeviceReceives.OpenKeeps(h, d, D.Effect(d, h.out[0], answer));
  }

  lemma CloseEffect(d: D.Device, m: Message, answer: Option<Packet>)
    requires d.phase != D.Disconnected && m.command == Close
    ensures var e := D.Effect(d, m, answer);
      && e.streams == d.streams - {m.dev} && e.nextId == d.nextId && e.out == d.out && e.phase == D.Connected
      && e.queue == (if m.dev in d.streams then WithoutDev(d.queue, m.dev) else d.queue)
      && e.released == if d.phase == D.Waiting then d.released + 1 else d.released
  {
    assert m.dev !in d.streams ==> d.streams - {m.dev} == d.streams;
  }

  lemma SessionClose(h: H.Host, d: D.Device, answer: Option<Packet>)
    requires Session.Invariant(h, d) && h.out != [] && h.out[0].command == Close
    ensures Session.Invariant(DeviceReceives.TakenByDevice(h), D.Effect(d, h.out[0], answer))
  {
    CloseEffect(d, h.out[0], answer);
    DeviceReceives.CloseKeeps(h, d, D.Effect(d, h.out[0], answer));
  }

  lemma SessionOk(h: H.Host, d: D.Device, answer: Option<Packet>)
    requires Session.Invariant(h, d) && h.out != [] && h.out[0].command == Ok
    ensures Session.Invariant(DeviceReceives.TakenByDevice(h), D.Effect(d, h.out[0], answer))
  {
    DeviceReceives.OkKeeps(h, d, D.Effect(d, h.out[0], answer));
  }

  /** In a session the host sends only Open, Write, Close and Ok. */
  lemma SessionEffect(h: H.Host, d: D.Device, answer: Option<Packet>)
    requires H.HostOk(h) && HistoriesOk(h) && D.StreamsOk(d) && Session.Invariant(h, d) && IsAnswer(answer)
    requires h.out != []
    ensures Session.Invariant(DeviceReceives.TakenByDevice(h), D.Effect(d, h.out[0], answer))
  {
    assert Session.SentOk(h, d, h.out[0]);
    match h.out[0].command
    case Open => SessionOpen(h, d, answer);
    case Write => SessionWrite(h, d, answer);
    case Close => SessionClose(h, d, answer);
    case Ok => SessionOk(h, d, answer);
  }

  /** The device answers a Connect with a Connect, and is reset. */
  lemma TakeConnect(d: D.Device, m: Message, answer: Option<Packet>)
    requires m.command == Command.Connect && VersionMatches(m.data)
    ensures var e := D.Handle(d, m, answer); Fresh(e) && e.out == d.out + [ConnectMessage()]
  {
    D.DrainOne(D.Effect(d, m, answer), ConnectMessage());
  }

  lemma DeviceKeepsConnects(j: Joint, answer: Option<Packet>)
    requires D.DeviceOk(j.dev) && WiresOk(j) && j.host.out != [] && IsAnswer(answer) && ConnectInFlight(j)
    ensures ConnectInFlight(Next(j, ToDevice(answer)))
  {
    var m, e := j.host.out[0], D.Handle(j.dev, j.host.out[0], answer);
    assert m in j.host.out;
    DeviceWires(j.dev, m, answer);
    if Count(j.dev.out, {Command.Connect}) > 0 {
      ConnectStays(j.dev.out, e.out);
    } else if m.command == Command.Connect {
      TakeConnect(j.dev, m, answer);
      LastCounts(e.out);
    }
  }

  lemma DeviceKeepsAwaiting(j: Joint, answer: Option<Packet>)
    requires WiresOk(j) && j.host.out != [] && IsAnswer(answer) && Awaiting(j)
    ensures Awaiting(Next(j, ToDevice(answer)))
  {
    if |j.host.out| == 1 {
      assert j.host.out[0] in j.host.out;
      TakeConnect(j.dev, j.host.out[0], answer);
    }
  }

  lemma ToDeviceSynchronises(j: Joint, answer: Option<Packet>)
    requires Invariant(j) && j.host.out != [] && IsAnswer(answer)
    ensures Synchronised(Next(j, ToDevice(answer)))
  {
    var h, d := j.host, j.dev;
    if h.phase == H.WaitingForConnection {
      DeviceKeepsAwaiting(j, answer);
    } else if Session.InSession(h) {
      if ConnectInFlight(j) {
        DeviceKeepsConnects(j, answer);
      } else {
        SessionEffect(h, d, answer);
        DeviceReceives.DrainKeeps(DeviceReceives.TakenByDevice(h), D.Effect(d, h.out[0], answer));
      }
    }
  }

  // ---------- A call of the application ----------

  lemma AppHostOk(j: Joint, step: Step)
    requires H.HostOk(j.host) && Enabled(j, step) && !step.ToHost?
    ensures H.HostOk(Next(j, step).host)
  {
    match step
    case Connect => H.ConnectOk(j.host);
    case CreateStream(tag) => H.CreateStreamOk(j.host, tag);
    case WritePacket(id, packet) => H.WritePacketOk(j.host, id, packet);
    case RequestClose(id) => H.RequestCloseOk(j.host, id);
    case CloseAll(order) => H.CloseAllOk(j.host, order);
    case _ =>
  }

  lemma {:induction false} FragmentsInSession(h: H.Host, id: nat, fragments: seq<Bytes>)
    requires H.HostOk(h) && Session.InSession(h)
    ensures Session.InSession(H.EnqueueFragments(h, id, fragments))
    decreases fragments
  {
    if fragments != [] && id in h.streams {
      var q := H.Queueing(h, id, fragments[0]);
      H.QueueingOk(h, id, fragments[0]);
      H.ProcessQueueOk(q);
      InSessionStays(q);
      FragmentsInSession(H.ProcessQueue(q), id, fragments[1..]);
    }
  }

  predicate IsRequest(step: Step) {
    step.CreateStream? || step.WritePacket? || step.RequestClose?
  }

  lemma RequestInSession(j: Joint, step: Step)
    requires H.HostOk(j.host) && Session.InSession(j.host) && Enabled(j, step) && IsRequest(step)
    ensures Session.InSession(Next(j, step).host)
  {
    var h := j.host;
    match step
    case CreateStream(tag) =>
      H.RequestingOk(h, tag);
      InSessionStays(H.Requesting(h, tag));
    case WritePacket(id, packet) => FragmentsInSession(h, id, Fragments(Wrap(packet)));
    case RequestClose(id) =>
      var m := CloseMessage(h.streams[id].host, h.streams[id].dev);
      H.QueueingCloseOk(h, m);
      InSessionStays(h.(queue := h.queue + [m]));
  }

  lemma RequestKeepsSession(j: Joint, step: Step)
    requires H.HostOk(j.host) && Session.Invariant(j.host, j.dev) && Enabled(j, step) && IsRequest(step)
    ensures Session.Invariant(Next(j, step).host, j.dev)
  {
    match step
    case CreateStream(tag) => HostSteps.CreateStreamKeeps(j.host, j.dev, tag);
    case WritePacket(id, packet) => HostSteps.WritePacketKeeps(j.host, j.dev, id, packet);
    case RequestClose(id) => HostSteps.RequestCloseKeeps(j.host, j.dev, id);
  }

  lemma RequestSynchronises(j: Joint, step: Step)
    requires Invariant(j) && Enabled(j, step) && IsRequest(step)
    ensures Synchronised(Next(j, step))
  {
    var k := Next(j, step);
    if Session.InSession(j.host) {
      RequestInSession(j, step);
      if ConnectInFlight(j) {
        HostWires(j, step);
        if Count(j.host.out, {Command.Connect}) > 0 {
          ConnectStays(j.host.out, k.host.out);
        }
      } else {
        RequestKeepsSession(j, step);
      }
    }
  }

  lemma ConnectAwaits(j: Joint)
    requires H.HostOk(j.host) && Enabled(j, Step.Connect)
    ensures Synchronised(Next(j, Step.Connect))
  {
    var q := j.host.(queue := j.host.queue + [ConnectMessage()]);
    assert q.queue[0] == ConnectMessage();
  }

  // ---------- Whole runs ----------

  lemma NextEndsOk(j: Joint, step: Step)
    requires H.HostOk(j.host) && D.DeviceOk(j.dev) && WiresOk(j) && Enabled(j, step)
    ensures H.HostOk(Next(j, step).host) && D.DeviceOk(Next(j, step).dev)
  {
    match step
    case ToHost =>
      assert j.dev.out[0] in j.dev.out;
      H.HandleOk(j.host, j.dev.out[0]);
    case ToDevice(answer) =>
      assert j.host.out[0] in j.host.out;
      D.HandleOk(j.dev, j.host.out[0], answer);
    case _ => AppHostOk(j, step);
  }

  lemma CloseAllSynchronises(j: Joint, order: seq<nat>)
    requires Enabled(j, CloseAll(order))
    ensures Synchronised(Next(j, CloseAll(order)))
  {
    assert H.CloseAll(j.host, order).phase == H.Disconnected;
  }

  lemma NextSynchronises(j: Joint, step: Step)
    requires Invariant(j) && Enabled(j, step)
    ensures Synchronised(Next(j, step))
  {
    match step
    case ToHost => ToHostSynchronises(j);
    case ToDevice(answer) => ToDeviceSynchronises(j, answer);
    case Connect => ConnectAwaits(j);
    case CloseAll(order) => CloseAllSynchronises(j, order);
    case _ => RequestSynchronises(j, step);
  }

  lemma NextKeeps(j: Joint, step: Step)
    requires Invariant(j) && Enabled(j, step)
    ensures Invariant(Next(j, step))
  {
    NextWires(j, step);
    NextHistories(j, step);
    NextEndsOk(j, step);
    NextSynchronises(j, step);
  }

  lemma StartHolds(j: Joint)
    requires Start(j)
    ensures Invariant(j)
  {
  }

  /** The invariant holds in every state of every run, from any start. */
  lemma {:induction false} RunKeeps(j: Joint, steps: seq<Step>)
    requires Invariant(j) && IsRun(j, steps)
    ensures Invariant(After(j, steps))
    decreases |steps|
  {
    if steps != [] {
      NextKeeps(j, steps[0]);
      RunKeeps(Next(j, steps[0]), steps[1..]);
    }
  }
}
