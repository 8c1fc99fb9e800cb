/** Stream ids and histories in every state of every run from power-on. */
module IdentityRuns {
  import opened Protocol
  import opened Streams
  import opened Joint
  import opened Grammar
  import opened Identity
  import H = HostMachine
  import D = DeviceMachine
  import DeviceReceives
  import IdentityHost
  import Sync
  import SyncSteps

  // ---------- The steps of the device ----------

  lemma TakenKeeps(h: H.Host, d: D.Device)
    requires h.out != [] && Invariant(h, d)
    ensures Invariant(DeviceReceives.TakenByDevice(h), d)
  {
    var f := DeviceReceives.TakenByDevice(h);
    assert f.out + f.queue == (h.out + h.queue)[1..];
    assert forall x :: x in f.out ==> x in h.out;
    OpenIdsAppend([h.out[0]], f.out);
    assert h.out == [h.out[0]] + f.out;
    OpenIdsAppend(f.out, f.queue);
    OpenIdsAppend(h.out, h.queue);
  }

  /** The device changes, but it mints nothing and gains no stream, and its
      messages are such that the invariant allows them. */
  lemma DeviceChanges(h: H.Host, d: D.Device, e: D.Device)
    requires Invariant(h, d)
    requires e.minted == d.minted && e.nextId == d.nextId
    requires forall k :: k in e.streams ==>
      k in d.streams && e.streams[k].host == d.streams[k].host && e.streams[k].dev == d.streams[k].dev
    requires forall m :: m in e.out ==> DownOk(h, d, m)
    requires forall m :: m in e.queue ==> DownOk(h, d, m)
    ensures Invariant(h, e)
  {
    forall m
      ensures UpOk(h, d, m) ==> UpOk(h, e, m)
      ensures DownOk(h, d, m) ==> DownOk(h, e, m)
    {
    }
  }

  /** The Open `m` has been handled, and its device id has been minted. */
  predicate IsMinted(d: D.Device, e: D.Device, m: Message) {
    DeviceReceives.IsOpened(d, e, m) && e.minted == d.minted[d.nextId := m.host]
  }

  lemma OpenedMessages(h: H.Host, d: D.Device, e: D.Device, m: Message)
    requires IsMinted(d, e, m) && MessagesOk(h, d) && MintedOk(h, d) && FlushOk(h, d) && TablesOk(h, d)
    ensures MessagesOk(h, e) && FlushOk(h, e) && TablesOk(h, e)
  {
    forall x
      ensures Pair(d, x) ==> Pair(e, x)
      ensures UpOk(h, d, x) ==> UpOk(h, e, x)
      ensures DownOk(h, d, x) ==> DownOk(h, e, x)
    {
    }
  }

  /** A device id is minted for a host id that has had none. */
  lemma OpenedMinted(h: H.Host, d: D.Device, e: D.Device, m: Message)
    requires IsMinted(d, e, m) && 1 <= d.nextId && 1 <= m.host < h.nextId
    requires MintedOk(h, d) && OpensOk(h, d) && HistoryOk(h, d)
    requires NotMinted(d, m.host) && m.host !in OpenIds(h.out + h.queue) && StageOf(h.log, m.host) != Unopened
    ensures MintedOk(h, e) && OpensOk(h, e) && HistoryOk(h, e)
  {
    assert forall k :: k in d.minted ==> e.minted[k] == d.minted[k];
    forall id | id in OpenIds(h.out + h.queue)
      ensures NotMinted(e, id)
    {
    }
  }

  lemma OpenKeeps(h: H.Host, d: D.Device, e: D.Device)
    requires h.out != [] && h.out[0].command == Command.Open && IsMinted(d, e, h.out[0]) && 1 <= d.nextId
    requires Invariant(h, d)
    ensures Invariant(DeviceReceives.TakenByDevice(h), e)
  {
    var m, f := h.out[0], DeviceReceives.TakenByDevice(h);
    TakenKeeps(h, d);
    assert f.out + f.queue == (h.out + h.queue)[1..] && (h.out + h.queue)[0] == m;
    assert m in h.out && m.host in OpenIds(h.out) && m.host in OpenIds(h.out + h.queue);
    OpenedMessages(f, d, e, m);
    OpenedMinted(f, d, e, m);
  }

  lemma AnswerIsPair(h: H.Host, d: D.Device, m: Message, fragments: seq<Bytes>)
    requires Pair(d, m) && m.host !in h.requests
    ensures forall x :: x in WriteMessages(m.host, m.dev, fragments) ==> DownOk(h, d, x)
    ensures DownOk(h, d, OkMessage(m.host, m.dev)) && DownOk(h, d, CloseMessage(m.host, m.dev))
  {
  }

  lemma WriteKeeps(h: H.Host, d: D.Device, answer: Option<Packet>)
    requires h.out != [] && h.out[0].command == Write && Invariant(h, d)
    ensures Invariant(DeviceReceives.TakenByDevice(h), D.ReceivedWrite(d, h.out[0], answer))
  {
    var m, f := h.out[0], DeviceReceives.TakenByDevice(h);
    var e := D.ReceivedWrite(d, m, answer);
    TakenKeeps(h, d);
    assert UpOk(h, d, m);
    if m.dev in d.streams {
      var s := d.streams[m.dev];
      assert s.host == m.host && s.dev == m.dev;
      AnswerIsPair(f, d, m, D.ResponseFragments(D.Response(d, m, answer)));
      WriteShape(d, m, answer);
      DeviceChanges(f, d, e);
    } else {
      AnswerIsPair(f, d, m, []);
      DeviceChanges(f, d, e);
    }
  }

  lemma WriteShape(d: D.Device, m: Message, answer: Option<Packet>)
    requires m.dev in d.streams
    ensures var e, s := D.ReceivedWrite(d, m, answer), d.streams[m.dev];
      && e.minted == d.minted && e.nextId == d.nextId && e.out == d.out
      && (forall k :: k in e.streams ==>
           k in d.streams && e.streams[k].host == d.streams[k].host && e.streams[k].dev == d.streams[k].dev)
      && e.queue == d.queue + ([OkMessage(m.host, m.dev)]
           + WriteMessages(s.host, s.dev, D.ResponseFragments(D.Response(d, m, answer))))
  {
  }

  lemma ResetShape(d: D.Device, m: Message, answer: Option<Packet>)
    requires m.command == Command.Connect || d.phase == D.Disconnected
    ensures var e := D.Effect(d, m, answer);
      && |e.queue| == 1 && !IsStreamMessage(e.queue[0])
      && e.out == d.out && e.streams == map[] && e.minted == d.minted && e.nextId == d.nextId
  {
  }

  lemma ResetKeeps(h: H.Host, d: D.Device, answer: Option<Packet>)
    requires h.out != [] && Invariant(h, d)
    requires h.out[0].command == Command.Connect || d.phase == D.Disconnected
    ensures Invariant(DeviceReceives.TakenByDevice(h), D.Effect(d, h.out[0], answer))
  {
    var e := D.Effect(d, h.out[0], answer);
    TakenKeeps(h, d);
    ResetShape(d, h.out[0], answer);
    assert forall m :: m in e.queue ==> m == e.queue[0];
    DeviceChanges(DeviceReceives.TakenByDevice(h), d, e);
  }

  lemma CloseShape(d: D.Device, m: Message, answer: Option<Packet>)
    requires d.phase != D.Disconnected && (m.command == Close || m.command == Ok)
    ensures var e := D.Effect(d, m, answer);
      && e.minted == d.minted && e.nextId == d.nextId && e.out == d.out
      && (forall k :: k in e.streams ==> k in d.streams && e.streams[k] == d.streams[k])
      && (forall x :: x in e.queue ==> x in d.queue)
  {
  }

  lemma CloseKeeps(h: H.Host, d: D.Device, answer: Option<Packet>)
    requires h.out != [] && Invariant(h, d) && d.phase != D.Disconnected
    requires h.out[0].command == Close || h.out[0].command == Ok
    ensures Invariant(DeviceReceives.TakenByDevice(h), D.Effect(d, h.out[0], answer))
  {
    TakenKeeps(h, d);
    CloseShape(d, h.out[0], answer);
    DeviceChanges(DeviceReceives.TakenByDevice(h), d, D.Effect(d, h.out[0], answer));
  }

  lemma EffectKeeps(h: H.Host, d: D.Device, answer: Option<Packet>)
    requires h.out != [] && D.Supported(h.out[0]) && 1 <= d.nextId && Invariant(h, d)
    ensures Invariant(DeviceReceives.TakenByDevice(h), D.Effect(d, h.out[0], answer))
  {
    var m := h.out[0];
    if m.command == Command.Connect || d.phase == D.Disconnected {
      ResetKeeps(h, d, answer);
    } else if m.command == Command.Open {
      OpenKeeps(h, d, D.Effect(d, m, answer));
    } else if m.command == Write {
      WriteKeeps(h, d, answer);
    } else {
      CloseKeeps(h, d, answer);
    }
  }

  lemma DrainKeeps(h: H.Host, d: D.Device)
    requires Invariant(h, d)
    ensures Invariant(h, D.Drain(d))
  {
    var e := D.Drain(d);
    D.DrainFrame(d);
    D.DrainKeepsOrder(d);
    forall m
      ensures m in e.out || m in e.queue ==> m in d.out || m in d.queue
    {
      assert m in e.out + e.queue <==> m in d.out + d.queue;
    }
    DeviceChanges(h, d, e);
  }

  // ---------- Runs ----------

  lemma {:induction false} FragmentsKeep(h: H.Host, d: D.Device, id: nat, fragments: seq<Bytes>)
    requires H.HostOk(h) && Invariant(h, d) && id in h.streams && !CloseRequested(h, id)
    ensures Invariant(H.EnqueueFragments(h, id, fragments), d)
    decreases fragments
  {
    if fragments != [] {
      var q := H.Queueing(h, id, fragments[0]);
      IdentityHost.QueueWriteKeeps(h, d, id, fragments[0]);
      H.QueueingOk(h, id, fragments[0]);
      IdentityHost.ProcessQueueKeeps(q, d);
      H.ProcessQueueOk(q);
      Sync.FragmentQueued(h, id, fragments[0]);
      FragmentsKeep(H.ProcessQueue(q), d, id, fragments[1..]);
    }
  }

  lemma ConnectKeeps(h: H.Host, d: D.Device)
    requires H.HostOk(h) && h.phase == H.Disconnected && h.queue == [] && Invariant(h, d)
    ensures Invariant(H.Connect(h), d)
  {
    IdentityHost.SendConnect(h, d);
    var q := h.(queue := h.queue + [ConnectMessage()]);
    assert q.queue[0] == ConnectMessage() && q.queue[1..] == [];
    var e := H.Send(h, ConnectMessage());
    assert H.Connect(h) == e.(phase := H.WaitingForConnection);
    IdentityHost.PhaseKeeps(e, d, H.WaitingForConnection);
  }

  lemma ToHostKeeps(h: H.Host, d: D.Device)
    requires H.HostOk(h) && Invariant(h, d) && d.out != [] && H.Supported(d.out[0])
    ensures Invariant(H.Handle(h, d.out[0]), d.(out := d.out[1..]))
  {
    IdentityHost.HandleKeeps(h, d, d.out[0]);
    DeviceChanges(H.Handle(h, d.out[0]), d, d.(out := d.out[1..]));
  }

  lemma ToDeviceKeeps(h: H.Host, d: D.Device, answer: Option<Packet>)
    requires h.out != [] && D.Supported(h.out[0]) && 1 <= d.nextId && Invariant(h, d)
    ensures Invariant(DeviceReceives.TakenByDevice(h), D.Handle(d, h.out[0], answer))
  {
    EffectKeeps(h, d, answer);
    DrainKeeps(DeviceReceives.TakenByDevice(h), D.Effect(d, h.out[0], answer));
  }

  lemma RequestKeeps(j: Joint, step: Step)
    requires H.HostOk(j.host) && Enabled(j, step) && SyncSteps.IsRequest(step) && Invariant(j.host, j.dev)
    ensures Invariant(Next(j, step).host, j.dev)
  {
    var h, d := j.host, j.dev;
    match step
    case CreateStream(tag) =>
      IdentityHost.RequestKeeps(h, d, tag);
      H.RequestingOk(h, tag);
      IdentityHost.ProcessQueueKeeps(H.Requesting(h, tag), d);
    case WritePacket(id, packet) =>
      FragmentsKeep(h, d, id, Fragments(Wrap(packet)));
      IdentityHost.NoteKeeps(H.EnqueueFragments(h, id, Fragments(Wrap(packet))), d, id, packet);
    case RequestClose(id) =>
      var m := CloseMessage(h.streams[id].host, h.streams[id].dev);
      IdentityHost.QueueCloseKeeps(h, d, m);
      H.QueueingCloseOk(h, m);
      IdentityHost.ProcessQueueKeeps(h.(queue := h.queue + [m]), d);
  }

  lemma NextKeeps(j: Joint, step: Step)
    requires SyncSteps.Invariant(j) && Enabled(j, step) && Invariant(j.host, j.dev)
    ensures Invariant(Next(j, step).host, Next(j, step).dev)
  {
    match step
    case Connect => ConnectKeeps(j.host, j.dev);
    case ToDevice(answer) =>
      assert j.host.out[0] in j.host.out;
      ToDeviceKeeps(j.host, j.dev, answer);
    case ToHost =>
      assert j.dev.out[0] in j.dev.out;
      ToHostKeeps(j.host, j.dev);
    case CloseAll(order) => IdentityHost.CloseAllKeeps(j.host, j.dev, order);
    case _ => RequestKeeps(j, step);
  }

  lemma {:induction false} RunKeeps(j: Joint, steps: seq<Step>)
    requires SyncSteps.Invariant(j) && Invariant(j.host, j.dev) && IsRun(j, steps)
    ensures SyncSteps.Invariant(After(j, steps)) && Invariant(After(j, steps).host, After(j, steps).dev)
    decreases |steps|
  {
    if steps != [] {
      NextKeeps(j, steps[0]);
      SyncSteps.NextKeeps(j, steps[0]);
      RunKeeps(Next(j, steps[0]), steps[1..]);
    }
  }

  /** A state of some run from power-on. */
  ghost predicate Reached(steps: seq<Step>, j: Joint) {
    IsRun(POWER_ON, steps) && j == After(POWER_ON, steps)
  }

  lemma ReachedHolds(steps: seq<Step>, j: Joint)
    requires Reached(steps, j)
    ensures SyncSteps.Invariant(j) && Invariant(j.host, j.dev)
  {
    InvariantAtPowerOn();
    SyncSteps.StartHolds(POWER_ON);
    RunKeeps(POWER_ON, steps);
  }

  /** Ids are never reused: both counters are ahead of every id that has ever been
      used, nothing has been sent for an id the host has not yet given out, and
      different device ids were made for different host ids. */
  lemma IdsAreFresh(steps: seq<Step>, j: Joint)
    requires Reached(steps, j)
    ensures forall id :: id in j.host.streams || id in j.host.requests ==> id < j.host.nextId
    ensures forall id :: id in j.host.streams ==> id !in j.host.requests
    ensures forall k :: k in j.dev.minted ==> k < j.dev.nextId && j.dev.minted[k] < j.host.nextId
    ensures forall k, l :: k in j.dev.minted && l in j.dev.minted && k != l ==> j.dev.minted[k] != j.dev.minted[l]
    ensures forall id :: j.host.nextId <= id ==> About(j.host.log, id) == []
  {
    ReachedHolds(steps, j);
    forall id | j.host.nextId <= id
      ensures About(j.host.log, id) == []
    {
      var _, _ := HistoryShape(j.host.log, id);
    }
  }

  /** Every stream on either side is known under the pair that the device minted,
      and so is every message about it: the id assertions of receiveMessage hold. */
  lemma IdsAgree(steps: seq<Step>, j: Joint)
    requires Reached(steps, j)
    ensures forall id :: id in j.host.streams ==>
      var s := j.host.streams[id]; s.host == id && s.dev in j.dev.minted && j.dev.minted[s.dev] == id
    ensures forall k :: k in j.dev.streams ==>
      var s := j.dev.streams[k]; s.dev == k && k in j.dev.minted && j.dev.minted[k] == s.host
    ensures forall m :: m in j.host.out && m.command == Write && m.dev in j.dev.streams ==>
      j.dev.streams[m.dev].host == m.host && j.dev.streams[m.dev].dev == m.dev
    ensures forall m :: m in j.dev.out && m.command == Write && m.host in j.host.streams ==>
      j.host.streams[m.host].dev == m.dev && j.host.streams[m.host].host == m.host
  {
    ReachedHolds(steps, j);
    WritesArePairs(j.host, j.dev);
  }

  lemma WritesArePairs(h: H.Host, d: D.Device)
    requires MessagesOk(h, d) && MintedOk(h, d) && TablesOk(h, d)
    ensures forall m :: m in h.out && m.command == Write && m.dev in d.streams ==> d.streams[m.dev].host == m.host
    ensures forall m :: m in d.out && m.command == Write && m.host in h.streams ==> h.streams[m.host].dev == m.dev
  {
    forall m | m in h.out && m.command == Write && m.dev in d.streams
      ensures d.streams[m.dev].host == m.host
    {
      assert UpOk(h, d, m);
    }
    forall m | m in d.out && m.command == Write && m.host in h.streams
      ensures h.streams[m.host].dev == m.dev
    {
      assert DownOk(h, d, m);
      assert d.minted[m.dev] == d.minted[h.streams[m.host].dev];
    }
  }

  /** All the host has ever sent for one id: Open?, (Write | Ok)*, Close*. */
  lemma HistoriesAreWellFormed(steps: seq<Step>, j: Joint, id: nat)
    requires Reached(steps, j) && 1 <= id
    ensures exists opens, closes :: IsHistory(About(j.host.log, id), opens, closes)
  {
    ReachedHolds(steps, j);
    var opens, closes := HistoryShape(j.host.log, id);
  }

  /** When the Close of an open stream leaves the queue, everything written to
      the stream has been sent before it. */
  lemma CloseComesLast(steps: seq<Step>, j: Joint)
    requires Reached(steps, j) && H.MaySend(j.host) && j.host.queue[0].command == Close
    requires j.host.queue[0].host in j.host.streams
    ensures var s := j.host.streams[j.host.queue[0].host]; Payloads(j.host.log, s.dev) == Stream(s.wrote)
  {
    ReachedHolds(steps, j);
    var s := j.host.streams[j.host.queue[0].host];
    assert Sync.HistoryOk(s);
    NothingBehindClose(j.host, j.dev);
  }

  lemma NothingBehindClose(h: H.Host, d: D.Device)
    requires Invariant(h, d) && H.HostOk(h) && h.queue != [] && h.queue[0].command == Close
    requires h.queue[0].host in h.streams
    ensures Payloads(h.queue, h.streams[h.queue[0].host].dev) == []
  {
    var m := h.queue[0];
    var k := h.streams[m.host].dev;
    forall x | x in h.queue && x.command == Write
      ensures x.dev != k
    {
      assert x in h.queue[1..];
      assert UpOk(h, d, x) && UpOk(h, d, m);
    }
    PayloadsEmpty(h.queue, k);
  }
}
