/** The assertions of receiveMessage hold in every state of every run from
    power-on: also for Writes that arrive after the host has been reset. */
module Arrivals {
  import opened Protocol
  import opened Streams
  import opened Joint
  import opened SyncSteps
  import opened DoomedSessions
  import H = HostMachine
  import D = DeviceMachine
  import DeviceReceives
  import HostReceives
  import Identity
  import IdentityRuns
  import Session
  import Sync
  import Theorems

  /** Each device stream can take what is on its way to it ahead of any Connect. */
  ghost predicate Whole(h: H.Host, d: D.Device) {
    forall k :: k in d.streams ==> AllFit(IDLE, d.streams[k].raw + Payloads(UpToConnect(h.out), k))
  }

  lemma FitsSoFar(s: seq<Bytes>, t: seq<Bytes>)
    requires AllFit(IDLE, s + t)
    ensures AllFit(IDLE, s)
  {
    FeedAllAppend(IDLE, s, t);
  }

  // ---------- The host sends ----------

  /** What the host sends besides Writes changes nothing. */
  lemma AddedWhole(h: H.Host, e: H.Host, d: D.Device, more: seq<Message>)
    requires Whole(h, d) && e.out == h.out + more && forall m :: m in more ==> m.command != Write
    ensures Whole(e, d)
  {
    UpToConnectAppend(h.out, more);
    forall k | k in d.streams
      ensures Payloads(UpToConnect(e.out), k) == Payloads(UpToConnect(h.out), k)
    {
      if !HasConnect(h.out) {
        PayloadsAppend(h.out, UpToConnect(more), k);
        PayloadsEmpty(UpToConnect(more), k);
        assert Payloads(h.out, k) + [] == Payloads(h.out, k);
      }
    }
  }

  /** In a session, a stream of the host has only whole packets under way ... */
  lemma PairedFits(h: H.Host, d: D.Device, id: nat)
    requires Sync.HistoriesOk(h) && Session.Delivery(h, d)
    requires id in h.streams && h.streams[id].dev in d.streams
    ensures var k := h.streams[id].dev; AllFit(IDLE, d.streams[k].raw + Payloads(h.out, k))
  {
    var s, t := h.streams[id], d.streams[h.streams[id].dev];
    assert Sync.HistoryOk(s);
    RoundTrip(s.wrote);
    PayloadsAppend(h.out, h.queue, s.dev);
    Associative(t.raw, Payloads(h.out, s.dev), Payloads(h.queue, s.dev));
    FitsSoFar(t.raw + Payloads(h.out, s.dev), Payloads(h.queue, s.dev));
  }

  /** ... and any other device stream has nothing under way. */
  lemma UnpairedIsQuiet(h: H.Host, d: D.Device, k: nat)
    requires Session.MessagesOk(h, d) && k in d.streams && !Session.Paired(h, d, k)
    requires forall id :: id in h.streams ==>
      h.streams[id].dev in d.streams && d.streams[h.streams[id].dev].host == id
    ensures Payloads(h.out, k) == []
  {
    PayloadsEmpty(h.out, k);
    forall m | m in h.out && m.command == Write
      ensures m.dev != k
    {
      assert Session.SentOk(h, d, m);
    }
  }

  lemma SessionIsWhole(h: H.Host, d: D.Device)
    requires Sync.HistoriesOk(h) && Session.Invariant(h, d)
    requires forall k :: k in d.streams ==> AllFit(IDLE, d.streams[k].raw)
    ensures Whole(h, d)
  {
    NoConnectInSession(h, d);
    forall k | k in d.streams
      ensures AllFit(IDLE, d.streams[k].raw + Payloads(h.out, k))
    {
      if Session.Paired(h, d, k) {
        PairedFits(h, d, d.streams[k].host);
      } else {
        UnpairedIsQuiet(h, d, k);
        assert d.streams[k].raw + [] == d.streams[k].raw;
      }
    }
  }

  lemma RawFits(h: H.Host, d: D.Device)
    requires Whole(h, d)
    ensures forall k :: k in d.streams ==> AllFit(IDLE, d.streams[k].raw)
  {
    forall k | k in d.streams
      ensures AllFit(IDLE, d.streams[k].raw)
    {
      FitsSoFar(d.streams[k].raw, Payloads(UpToConnect(h.out), k));
    }
  }

  ghost predicate Good(j: Joint) {
    Known(j) && Barren(j) && Whole(j.host, j.dev)
  }

  lemma ResetIsWhole(h: H.Host, d: D.Device, reconnect: bool)
    requires H.HostOk(h) && Whole(h, d)
    ensures Whole(H.Reset(h, reconnect), d)
  {
    H.ResetOk(h, reconnect);
    AddedWhole(h, H.Reset(h, reconnect), d, if reconnect then [ConnectMessage()] else []);
  }

  lemma SendingIsWhole(h: H.Host, d: D.Device)
    requires H.HostOk(h) && h.streams == map[] && Whole(h, d)
    ensures Whole(H.ProcessQueue(h), d)
  {
    var more := ProcessQueueSends(h);
    AddedWhole(h, H.ProcessQueue(h), d, more);
  }

  lemma ReplyIsWhole(h: H.Host, d: D.Device, m: Message)
    requires H.HostOk(h) && Whole(h, d) && h.phase == H.WaitingForConnection
    requires m.command == Command.Connect && VersionMatches(m.data)
    ensures Whole(H.Handle(h, m), d)
  {
    H.DispatchOk(h, m);
    SendingIsWhole(H.Dispatch(h, m), d);
  }

  lemma DoomedIsWhole(h: H.Host, d: D.Device, m: Message)
    requires H.HostOk(h) && Session.InSession(h) && h.streams == map[] && Whole(h, d)
    requires m.command == Ok || m.command == Write || m.command == Close
    requires m.command == Ok ==> m.host !in h.requests
    ensures Whole(H.Handle(h, m), d)
  {
    var more := HandleSends(h, m);
    AddedWhole(h, H.Handle(h, m), d, more);
  }

  lemma MessageIsWhole(h: H.Host, d: D.Device)
    requires H.HostOk(h) && Sync.HistoriesOk(h) && Session.Invariant(h, d) && d.out != [] && Whole(h, d)
    ensures Whole(H.Handle(h, d.out[0]), HostReceives.TakenByHost(d))
  {
    RawFits(h, d);
    HostReceives.HandleKeeps(h, d);
    Sync.HandleHistories(h, d.out[0]);
    SessionIsWhole(H.Handle(h, d.out[0]), HostReceives.TakenByHost(d));
  }

  lemma ToHostIsWhole(j: Joint)
    requires Good(j) && j.dev.out != []
    ensures Whole(Next(j, ToHost).host, Next(j, ToHost).dev)
  {
    var h, d := j.host, j.dev;
    var m := d.out[0];
    assert m in d.out;
    if Resets(h, m) {
      ResetsHow(h, m);
      ResetIsWhole(h, d, true);
      ResetIsWhole(h, d, false);
    } else if h.phase == H.WaitingForConnection {
      ReplyIsWhole(h, d, m);
    } else if Doomed(j) {
      TakenUnanswered(h, d);
      DoomedIsWhole(h, d, m);
    } else if Session.InSession(h) {
      InFlightIff(j);
      MessageIsWhole(h, d);
    }
  }

  lemma RequestIsWhole(j: Joint, step: Step)
    requires Good(j) && Enabled(j, step) && IsRequest(step)
    ensures Whole(Next(j, step).host, j.dev)
  {
    var h, d := j.host, j.dev;
    if Doomed(j) {
      H.RequestingOk(h, step.tag);
      SendingIsWhole(H.Requesting(h, step.tag), d);
    } else if Session.InSession(h) {
      InFlightIff(j);
      SessionRequestIsWhole(j, step);
    } else {
      NoRequestBefore(j, step);
    }
  }

  lemma SessionRequestIsWhole(j: Joint, step: Step)
    requires Good(j) && Enabled(j, step) && IsRequest(step) && Session.Invariant(j.host, j.dev)
    ensures Whole(Next(j, step).host, j.dev)
  {
    RawFits(j.host, j.dev);
    RequestKeepsSession(j, step);
    Sync.NextHistories(j, step);
    SessionIsWhole(Next(j, step).host, j.dev);
  }

  lemma CloseAllIsWhole(j: Joint, order: seq<nat>)
    requires Good(j) && Enabled(j, CloseAll(order))
    ensures Whole(Next(j, CloseAll(order)).host, j.dev)
  {
    var h, k := j.host, Next(j, CloseAll(order));
    Sync.ClosesAreCloses(h.streams, order);
    if Session.InSession(h) {
      AddedWhole(h, k.host, j.dev, H.Closes(h.streams, order));
    } else {
      assert k.host.out == h.out;
    }
  }

  lemma ConnectIsWhole(j: Joint)
    requires Good(j) && Enabled(j, Step.Connect)
    ensures Whole(Next(j, Step.Connect).host, j.dev)
  {
    var q := j.host.(queue := j.host.queue + [ConnectMessage()]);
    assert q.queue[0] == ConnectMessage();
    AddedWhole(j.host, Next(j, Step.Connect).host, j.dev, [ConnectMessage()]);
  }

  // ---------- A message for the device ----------

  lemma TakenPayloads(h: H.Host, k: nat)
    requires h.out != [] && h.out[0].command != Command.Connect
    ensures var m := h.out[0];
      Payloads(UpToConnect(h.out), k)
        == (if m.command == Write && m.dev == k then [m.data] else []) + Payloads(UpToConnect(h.out[1..]), k)
  {
    var rest := UpToConnect(h.out[1..]);
    assert UpToConnect(h.out) == [h.out[0]] + rest;
    assert ([h.out[0]] + rest)[1..] == rest;
  }

  /** What a message other than a Connect does to the history of a stream. */
  lemma EffectOnRaw(d: D.Device, m: Message, answer: Option<Packet>, k: nat)
    requires d.phase != D.Disconnected && m.command != Command.Connect
    ensures var e := D.Effect(d, m, answer);
      k in e.streams ==>
        if k in d.streams && !(m.command == Command.Open && k == d.nextId) then
          e.streams[k].raw == d.streams[k].raw + (if m.command == Write && m.dev == k then [m.data] else [])
        else
          m.command == Command.Open && k == d.nextId && e.streams[k].raw == []
  {
    assert k in d.streams ==> d.streams[k].raw + [] == d.streams[k].raw;
  }

  /** Nothing is under way to a device id that has not been minted. */
  lemma UnmintedIsQuiet(h: H.Host, d: D.Device, s: seq<Message>)
    requires Identity.Invariant(h, d) && forall m :: m in s ==> m in h.out
    ensures Payloads(s, d.nextId) == []
  {
    PayloadsEmpty(s, d.nextId);
    forall m | m in s && m.command == Write
      ensures m.dev != d.nextId
    {
      assert Identity.UpOk(h, d, m);
    }
  }

  lemma EffectIsWhole(h: H.Host, d: D.Device, answer: Option<Packet>)
    requires h.out != [] && Identity.Invariant(h, d) && Whole(h, d)
    ensures Whole(DeviceReceives.TakenByDevice(h), D.Effect(d, h.out[0], answer))
  {
    var m, f, e := h.out[0], DeviceReceives.TakenByDevice(h), D.Effect(d, h.out[0], answer);
    if m.command == Command.Connect || d.phase == D.Disconnected {
      IdentityRuns.ResetShape(d, m, answer);
    } else {
      forall k | k in e.streams
        ensures AllFit(IDLE, e.streams[k].raw + Payloads(UpToConnect(f.out), k))
      {
        StreamIsWhole(h, d, answer, k);
      }
    }
  }

  lemma StreamIsWhole(h: H.Host, d: D.Device, answer: Option<Packet>, k: nat)
    requires h.out != [] && Identity.Invariant(h, d) && Whole(h, d)
    requires h.out[0].command != Command.Connect && d.phase != D.Disconnected
    requires k in D.Effect(d, h.out[0], answer).streams
    ensures AllFit(IDLE, D.Effect(d, h.out[0], answer).streams[k].raw + Payloads(UpToConnect(h.out[1..]), k))
  {
    var m, e := h.out[0], D.Effect(d, h.out[0], answer);
    var coming := Payloads(UpToConnect(h.out[1..]), k);
    EffectOnRaw(d, m, answer, k);
    if m.command == Command.Open && k == d.nextId {
      UnmintedIsQuiet(h, d, UpToConnect(h.out[1..]));
    } else {
      TakenPayloads(h, k);
      var now := if m.command == Write && m.dev == k then [m.data] else [];
      Associative(d.streams[k].raw, now, coming);
    }
  }

  lemma ToDeviceIsWhole(j: Joint, answer: Option<Packet>)
    requires Good(j) && Enabled(j, ToDevice(answer))
    ensures Whole(Next(j, ToDevice(answer)).host, Next(j, ToDevice(answer)).dev)
  {
    EffectIsWhole(j.host, j.dev, answer);
    D.DrainFrame(D.Effect(j.dev, j.host.out[0], answer));
  }

  // ---------- Whole runs ----------

  lemma NextIsGood(j: Joint, step: Step)
    requires Good(j) && Enabled(j, step)
    ensures Good(Next(j, step))
  {
    NextKeeps(j, step);
    IdentityRuns.NextKeeps(j, step);
    NextIsBarren(j, step);
    match step
    case ToHost => ToHostIsWhole(j);
    case ToDevice(answer) => ToDeviceIsWhole(j, answer);
    case Connect => ConnectIsWhole(j);
    case CloseAll(order) => CloseAllIsWhole(j, order);
    case _ => RequestIsWhole(j, step);
  }

  lemma {:induction false} RunIsGood(j: Joint, steps: seq<Step>)
    requires Good(j) && IsRun(j, steps)
    ensures Good(After(j, steps))
    decreases |steps|
  {
    if steps != [] {
      NextIsGood(j, steps[0]);
      RunIsGood(Next(j, steps[0]), steps[1..]);
    }
  }

  lemma HeadFits(h: H.Host, d: D.Device)
    requires Whole(h, d) && D.StreamsOk(d)
    requires h.out != [] && h.out[0].command == Write && h.out[0].dev in d.streams
    ensures FitsPacket(d.streams[h.out[0].dev].assembly, h.out[0].data)
  {
    var m := h.out[0];
    var t := d.streams[m.dev];
    TakenPayloads(h, m.dev);
    FeedAllAppend(IDLE, t.raw, Payloads(UpToConnect(h.out), m.dev));
    assert InboxOk(t);
  }

  lemma ReachedIsGood(steps: seq<Step>, j: Joint)
    requires IdentityRuns.Reached(steps, j)
    ensures Good(j)
  {
    IdentityRuns.ReachedHolds([], POWER_ON);
    RunIsGood(POWER_ON, steps);
  }

  lemma StreamsAreNotDoomed(j: Joint)
    requires H.HostOk(j.host) && Barren(j) && j.host.streams != map[]
    ensures Theorems.Established(j)
  {
    InFlightIff(j);
  }

  /** The host has streams only in a session that is not going to be reset by a
      Connect under way. */
  lemma StreamsMeanEstablished(steps: seq<Step>, j: Joint)
    requires IdentityRuns.Reached(steps, j) && j.host.streams != map[]
    ensures Theorems.Established(j)
  {
    ReachedIsGood(steps, j);
    StreamsAreNotDoomed(j);
  }

  lemma DeviceArrivalFits(steps: seq<Step>, j: Joint)
    requires IdentityRuns.Reached(steps, j)
    requires j.host.out != [] && j.host.out[0].command == Write && j.host.out[0].dev in j.dev.streams
    ensures FitsPacket(j.dev.streams[j.host.out[0].dev].assembly, j.host.out[0].data)
  {
    ReachedIsGood(steps, j);
    HeadFits(j.host, j.dev);
  }

  lemma HostArrivalFits(steps: seq<Step>, j: Joint)
    requires IdentityRuns.Reached(steps, j)
    requires j.dev.out != [] && j.dev.out[0].command == Write && j.dev.out[0].host in j.host.streams
    ensures FitsPacket(j.host.streams[j.dev.out[0].host].assembly, j.dev.out[0].data)
  {
    StreamsMeanEstablished(steps, j);
    Theorems.ArrivalsFit(POWER_ON, steps, j);
  }

  /** In every state of every run, resets included: a Write that arrives at a
      stream, on either side, has the ids of that stream, continues what the
      stream has received, and does not reach beyond a packet. */
  lemma EveryArrivalFits(steps: seq<Step>, j: Joint)
    requires IdentityRuns.Reached(steps, j)
    ensures j.host.out != [] && j.host.out[0].command == Write && j.host.out[0].dev in j.dev.streams ==>
      var m := j.host.out[0];
      && j.dev.streams[m.dev].host == m.host && j.dev.streams[m.dev].dev == m.dev
      && FitsPacket(j.dev.streams[m.dev].assembly, m.data)
    ensures j.dev.out != [] && j.dev.out[0].command == Write && j.dev.out[0].host in j.host.streams ==>
      var m := j.dev.out[0];
      && j.host.streams[m.host].host == m.host && j.host.streams[m.host].dev == m.dev
      && FitsPacket(j.host.streams[m.host].assembly, m.data)
  {
    IdentityRuns.IdsAgree(steps, j);
    if j.host.out != [] && j.host.out[0].command == Write && j.host.out[0].dev in j.dev.streams {
      DeviceArrivalFits(steps, j);
    }
    if j.dev.out != [] && j.dev.out[0].command == Write && j.dev.out[0].host in j.host.streams {
      HostArrivalFits(steps, j);
    }
  }
}
