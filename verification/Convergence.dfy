/** Without new calls of the application, deliveries come to an end, whatever the
    executors answer: stray messages and crossed Connects die out. Every delivery
    decreases a measure, but for what an answer is longer than the packet it
    answers; and there are no more answers than Writes of the host. */
module Convergence {
  import opened Protocol
  import opened Streams
  import opened Joint
  import H = HostMachine
  import D = DeviceMachine
  import SyncSteps
  import Theorems

  // ---------- The measure ----------

  /** The work in a message to the device. */
  function UpWork(m: Message): nat {
    match m.command
    case Connect => 4
    case Write => 34 + 7 * |m.data|
    case _ => 6
  }

  /** The work in a message to the host. */
  function DownWork(m: Message): nat {
    match m.command
    case Connect => 3
    case Write => 7
    case _ => 5
  }

  function UpSum(s: seq<Message>): nat {
    if s == [] then 0 else UpWork(s[0]) + UpSum(s[1..])
  }

  function DownSum(s: seq<Message>): nat {
    if s == [] then 0 else DownWork(s[0]) + DownSum(s[1..])
  }

  /** A partial packet will be answered when it is complete. */
  function Credit(a: Assembly): nat {
    if a.partly then 7 * (|a.data| + 4) else 0
  }

  ghost function Credits(streams: map<nat, StreamState>): nat
    decreases |streams|
  {
    if streams == map[] then 0
    else
      var k :| k in streams;
      Credit(streams[k].assembly) + Credits(streams - {k})
  }

  function PhaseWork(phase: H.Phase): nat {
    if phase == H.WaitingForConnection then 0 else 2
  }

  ghost function Measure(j: Joint): nat {
    UpSum(j.host.out) + UpSum(j.host.queue) + PhaseWork(j.host.phase)
    + DownSum(j.dev.out) + DownSum(j.dev.queue) + Credits(j.dev.streams)
  }

  lemma UpAppend(s: seq<Message>, t: seq<Message>)
    ensures UpSum(s + t) == UpSum(s) + UpSum(t)
  {
    if s == [] {
      assert s + t == t;
    } else {
      assert (s + t)[1..] == s[1..] + t;
      UpAppend(s[1..], t);
    }
  }

  lemma DownAppend(s: seq<Message>, t: seq<Message>)
    ensures DownSum(s + t) == DownSum(s) + DownSum(t)
  {
    if s == [] {
      assert s + t == t;
    } else {
      assert (s + t)[1..] == s[1..] + t;
      DownAppend(s[1..], t);
    }
  }

  lemma UpWithout(s: seq<Message>, host: nat)
    ensures UpSum(WithoutHost(s, host)) <= UpSum(s)
  {
    if s != [] {
      UpWithout(s[1..], host);
      var rest := WithoutHost(s[1..], host);
      if s[0].host != host {
        assert ([s[0]] + rest)[1..] == rest;
      } else {
        assert [] + rest == rest;
      }
    }
  }

  lemma DownWithout(s: seq<Message>, dev: nat)
    ensures DownSum(WithoutDev(s, dev)) <= DownSum(s)
  {
    if s != [] {
      DownWithout(s[1..], dev);
      var rest := WithoutDev(s[1..], dev);
      if s[0].dev != dev {
        assert ([s[0]] + rest)[1..] == rest;
      } else {
        assert [] + rest == rest;
      }
    }
  }

  /** The choice in `Credits` does not matter. */
  lemma {:induction false} CreditsOf(streams: map<nat, StreamState>, id: nat)
    requires id in streams
    ensures Credits(streams) == Credit(streams[id].assembly) + Credits(streams - {id})
    decreases |streams|
  {
    var k :| k in streams && Credits(streams) == Credit(streams[k].assembly) + Credits(streams - {k});
    if k != id {
      CreditsOf(streams - {k}, id);
      CreditsOf(streams - {id}, k);
      assert streams - {k} - {id} == streams - {id} - {k};
    }
  }

  lemma CreditsUpdate(streams: map<nat, StreamState>, id: nat, s: StreamState)
    ensures Credits(streams[id := s])
         == Credit(s.assembly) + Credits(streams) - if id in streams then Credit(streams[id].assembly) else 0
  {
    CreditsOf(streams[id := s], id);
    if id in streams {
      CreditsOf(streams, id);
      assert streams[id := s] - {id} == streams - {id};
    } else {
      assert streams[id := s] - {id} == streams;
    }
  }

  // ---------- The host ----------

  ghost function HostWork(h: H.Host): nat {
    UpSum(h.out) + UpSum(h.queue) + PhaseWork(h.phase)
  }

  lemma SendWork(h: H.Host)
    requires h.queue != []
    ensures UpSum(h.out + [h.queue[0]]) + UpSum(h.queue[1..]) == UpSum(h.out) + UpSum(h.queue)
  {
    UpAppend(h.out, [h.queue[0]]);
  }

  lemma CloseWork(h: H.Host, id: nat)
    ensures HostWork(H.CloseStream(h, id)) <= HostWork(h)
  {
    UpWithout(h.queue, id);
  }

  lemma ProcessQueueWork(h: H.Host)
    ensures HostWork(H.ProcessQueue(h)) <= HostWork(h)
  {
    if H.MaySend(h) {
      var m := h.queue[0];
      var sent := H.Send(h, m).(queue := h.queue[1..]);
      SendWork(h);
      assert HostWork(sent) == HostWork(h);
      if m.command == Close {
        CloseWork(sent.(fault := H.ProcessQueue(h).fault), m.host);
      } else {
        assert H.ProcessQueue(h).out == sent.out && H.ProcessQueue(h).queue == sent.queue;
      }
    }
  }

  lemma EnqueueWork(h: H.Host, m: Message)
    ensures HostWork(H.Enqueue(h, m)) <= HostWork(h) + UpWork(m)
  {
    UpAppend(h.queue, [m]);
    ProcessQueueWork(h.(queue := h.queue + [m]));
  }

  lemma ResetWork(h: H.Host, reconnect: bool)
    ensures HostWork(H.Reset(h, reconnect)) == UpSum(h.out) + if reconnect then 4 else 2
  {
    if reconnect {
      var q := H.Cleared(h).(queue := H.Cleared(h).queue + [ConnectMessage()]);
      assert q.queue[0] == ConnectMessage() && q.queue[1..] == [];
      UpAppend(h.out, [ConnectMessage()]);
    }
  }

  lemma HandleWriteWork(h: H.Host, m: Message)
    ensures HostWork(H.HandleWrite(h, m)) <= HostWork(h) + 6
  {
    if m.host !in h.streams {
      EnqueueWork(h, CloseMessage(m.host, m.dev));
    } else {
      UpAppend(h.out, [OkMessage(m.host, m.dev)]);
    }
  }

  lemma DispatchWork(h: H.Host, m: Message)
    requires H.Supported(m) && m.command != Invalid
    ensures HostWork(H.Dispatch(h, m)) < HostWork(h) + DownWork(m)
  {
    ResetWork(h, true);
    ResetWork(h, false);
    if h.phase == H.Connected || h.phase == H.Waiting {
      if m.command == Write {
        HandleWriteWork(h, m);
      } else if m.command == Close {
        UpWithout(h.queue, m.host);
      }
    }
  }

  /** A message that the host takes brings in more work than it leaves behind. */
  lemma HostDecreases(h: H.Host, m: Message)
    requires H.Supported(m)
    ensures HostWork(H.Handle(h, m)) < HostWork(h) + DownWork(m)
  {
    if m.command == Invalid {
      ResetWork(h, false);
    } else {
      DispatchWork(h, m);
      ProcessQueueWork(H.Dispatch(h, m));
    }
  }

  // ---------- The device ----------

  ghost function DeviceWork(d: D.Device): nat {
    DownSum(d.out) + DownSum(d.queue) + Credits(d.streams)
  }

  lemma DrainWork(d: D.Device)
    ensures DeviceWork(D.Drain(d)) == DeviceWork(d)
  {
    var e := D.Drain(d);
    D.DrainFrame(d);
    D.DrainKeepsOrder(d);
    DownAppend(d.out, d.queue);
    DownAppend(e.out, e.queue);
  }

  /** What an answer adds when it is longer than the packet that it answers. */
  function Excess(packet: Option<Packet>, response: Option<Packet>): nat {
    if packet.Some? && response.Some? && |response.value| > |packet.value|
    then 7 * (|response.value| - |packet.value|) else 0
  }

  /** What the executor adds when it is given the Write `m`. */
  function Surplus(d: D.Device, m: Message, answer: Option<Packet>): nat {
    if m.command == Write && m.dev in d.streams
    then Excess(Feed(d.streams[m.dev].assembly, m.data).1, D.Response(d, m, answer)) else 0
  }

  lemma {:induction false} FragmentsCount(data: Bytes)
    ensures |Fragments(data)| <= |data|
    decreases |data|
  {
    if data != [] {
      FragmentsCount(data[if |data| < MAX_PAYLOAD then |data| else MAX_PAYLOAD..]);
    }
  }

  lemma WritesWork(host: nat, dev: nat, fragments: seq<Bytes>)
    ensures DownSum(WriteMessages(host, dev, fragments)) == 7 * |fragments|
  {
    if fragments != [] {
      WritesWork(host, dev, fragments[1..]);
    }
  }

  /** What a payload adds: to the partial packet, or as the answer to a packet. */
  lemma FeedWork(a: Assembly, payload: Bytes, response: Option<Packet>)
    requires Feed(a, payload).1.None? ==> response.None?
    ensures Credit(Feed(a, payload).0) + 7 * |D.ResponseFragments(response)|
         <= Credit(a) + 28 + 7 * |payload| + Excess(Feed(a, payload).1, response)
  {
    if response.Some? {
      FragmentsCount(Wrap(response.value));
    }
  }

  lemma ReceivedWriteWork(d: D.Device, m: Message, answer: Option<Packet>)
    requires m.dev in d.streams && m.command == Write
    ensures DeviceWork(D.ReceivedWrite(d, m, answer))
         <= DeviceWork(d) + 5 + 28 + 7 * |m.data| + Surplus(d, m, answer)
  {
    var s, response := d.streams[m.dev], D.Response(d, m, answer);
    var t := D.Answered(s, m.data, response);
    FeedWork(s.assembly, m.data, response);
    CreditsUpdate(d.streams, m.dev, t);
    var writes := WriteMessages(s.host, s.dev, D.ResponseFragments(response));
    WritesWork(s.host, s.dev, D.ResponseFragments(response));
    DownAppend([OkMessage(m.host, m.dev)], writes);
    DownAppend(d.queue, [OkMessage(m.host, m.dev)] + writes);
  }

  lemma CloseStreamWork(d: D.Device, id: nat)
    ensures DeviceWork(D.CloseStream(d, id)) <= DeviceWork(d)
  {
    if id in d.streams {
      CreditsOf(d.streams, id);
      DownWithout(d.queue, id);
    }
  }

  lemma OpenedWork(d: D.Device, host: nat, tag: Bytes)
    requires d.nextId !in d.streams
    ensures DeviceWork(D.Opened(d, host, tag)) == DeviceWork(d) + 5
  {
    CreditsUpdate(d.streams, d.nextId, NewStream(host, d.nextId));
    DownAppend(d.queue, [OkMessage(host, d.nextId)]);
  }

  /** A message that the device takes brings in more work than it leaves behind,
      but for the surplus of an answer. */
  lemma DeviceDecreases(d: D.Device, m: Message, answer: Option<Packet>)
    requires D.DeviceOk(d) && D.Supported(m) && (m.command == Command.Connect ==> VersionMatches(m.data))
    ensures DeviceWork(D.Handle(d, m, answer)) < DeviceWork(d) + UpWork(m) + Surplus(d, m, answer)
  {
    DrainWork(D.Effect(d, m, answer));
    if m.command == Command.Connect || d.phase == D.Disconnected {
    } else {
      match m.command
      case Open => OpenedWork(d, m.host, m.data);
      case Write =>
        if m.dev in d.streams {
          ReceivedWriteWork(d, m, answer);
        } else {
          DownAppend(d.queue, [CloseMessage(m.host, m.dev)]);
        }
      case Close =>
        var released := if d.phase == D.Waiting then d.released + 1 else d.released;
        CloseStreamWork(d.(phase := D.Connected, released := released), m.dev);
      case Ok =>
    }
  }

  // ---------- The Writes of the host ----------

  /** Only these can be answered. */
  function Writes(h: H.Host): nat {
    Count(h.out, {Write}) + Count(h.queue, {Write})
  }

  lemma SendWrites(h: H.Host)
    requires h.queue != []
    ensures Count(h.out + [h.queue[0]], {Write}) + Count(h.queue[1..], {Write}) == Writes(h)
  {
    CountAppend(h.out, [h.queue[0]], {Write});
  }

  lemma CloseWrites(h: H.Host, id: nat)
    ensures Writes(H.CloseStream(h, id)) <= Writes(h)
  {
    CountWithoutHost(h.queue, id, {Write});
  }

  lemma ProcessQueueWrites(h: H.Host)
    ensures Writes(H.ProcessQueue(h)) <= Writes(h)
  {
    if H.MaySend(h) {
      var m := h.queue[0];
      var sent := H.Send(h, m).(queue := h.queue[1..]);
      SendWrites(h);
      assert Writes(sent) == Writes(h);
      if m.command == Close {
        CloseWrites(sent.(fault := H.ProcessQueue(h).fault), m.host);
      } else {
        assert H.ProcessQueue(h).out == sent.out && H.ProcessQueue(h).queue == sent.queue;
      }
    }
  }

  lemma ResetWrites(h: H.Host, reconnect: bool)
    requires 1 <= h.nextId && !h.fault
    ensures Writes(H.Reset(h, reconnect)) <= Writes(h)
  {
    H.ResetOk(h, reconnect);
    CountAppend(h.out, if reconnect then [ConnectMessage()] else [], {Write});
  }

  lemma HandleWriteWrites(h: H.Host, m: Message)
    ensures Writes(H.HandleWrite(h, m)) <= Writes(h)
  {
    if m.host !in h.streams {
      CountAppend(h.queue, [CloseMessage(m.host, m.dev)], {Write});
      ProcessQueueWrites(h.(queue := h.queue + [CloseMessage(m.host, m.dev)]));
    } else {
      CountAppend(h.out, [OkMessage(m.host, m.dev)], {Write});
    }
  }

  /** Handling a message makes no Write. */
  lemma HandleWrites(h: H.Host, m: Message)
    requires H.HostOk(h) && H.Supported(m)
    ensures Writes(H.Handle(h, m)) <= Writes(h)
  {
    ResetWrites(h, true);
    ResetWrites(h, false);
    if m.command != Invalid {
      HandleWriteWrites(h, m);
      CountWithoutHost(h.queue, m.host, {Write});
      assert Writes(H.Dispatch(h, m)) <= Writes(h);
      ProcessQueueWrites(H.Dispatch(h, m));
    }
  }

  // ---------- Deliveries ----------

  /** Nothing new from the application. */
  predicate IsDelivery(step: Step) {
    step.ToHost? || step.ToDevice?
  }

  predicate AreDeliveries(steps: seq<Step>) {
    forall step :: step in steps ==> IsDelivery(step)
  }

  /** What the executor adds in the step. */
  ghost function StepSurplus(j: Joint, step: Step): nat
    requires Enabled(j, step)
  {
    if step.ToDevice? then Surplus(j.dev, j.host.out[0], step.answer) else 0
  }

  /** With any answer, a delivery decreases the measure but for the surplus. */
  lemma DeliveryDecreases(j: Joint, step: Step)
    requires SyncSteps.Invariant(j) && Enabled(j, step) && IsDelivery(step)
    ensures Measure(Next(j, step)) < Measure(j) + StepSurplus(j, step)
  {
    if step == ToHost {
      assert j.dev.out[0] in j.dev.out;
      HostDecreases(j.host, j.dev.out[0]);
    } else {
      assert j.host.out[0] in j.host.out;
      DeviceDecreases(j.dev, j.host.out[0], step.answer);
    }
  }

  lemma DeliveryWrites(j: Joint, step: Step)
    requires SyncSteps.Invariant(j) && Enabled(j, step) && IsDelivery(step)
    ensures Writes(Next(j, step).host) <= Writes(j.host)
    ensures StepSurplus(j, step) > 0 ==> Writes(Next(j, step).host) < Writes(j.host)
  {
    if step == ToHost {
      assert j.dev.out[0] in j.dev.out;
      HandleWrites(j.host, j.dev.out[0]);
    }
  }

  /** With any answers, every delivery takes a Write away for good, or it leaves all
      of them and decreases the measure: there are no endless deliveries. */
  lemma DeliveryDescends(j: Joint, step: Step)
    requires SyncSteps.Invariant(j) && Enabled(j, step) && IsDelivery(step)
    ensures Writes(Next(j, step).host) < Writes(j.host)
         || (Writes(Next(j, step).host) == Writes(j.host) && Measure(Next(j, step)) < Measure(j))
  {
    DeliveryDecreases(j, step);
    DeliveryWrites(j, step);
  }

  /** What the executors add in a series of deliveries. */
  ghost function TotalSurplus(j: Joint, steps: seq<Step>): nat
    requires IsRun(j, steps)
    decreases |steps|
  {
    if steps == [] then 0 else StepSurplus(j, steps[0]) + TotalSurplus(Next(j, steps[0]), steps[1..])
  }

  /** From any state of any run, no more deliveries follow than its measure and what
      the executors add say. */
  lemma {:induction false} DeliveriesEnd(j: Joint, steps: seq<Step>)
    requires SyncSteps.Invariant(j) && IsRun(j, steps) && AreDeliveries(steps)
    ensures |steps| <= Measure(j) - Measure(After(j, steps)) + TotalSurplus(j, steps)
    decreases |steps|
  {
    if steps != [] {
      DeliveryDecreases(j, steps[0]);
      SyncSteps.NextKeeps(j, steps[0]);
      DeliveriesEnd(Next(j, steps[0]), steps[1..]);
    }
  }

  // ---------- How much the executors add ----------

  /** No executor answers with more than `bound` bytes; echo is not asked. */
  predicate AnswersWithin(steps: seq<Step>, bound: nat) {
    forall step :: step in steps && step.ToDevice? && step.answer.Some? ==> |step.answer.value| <= bound
  }

  /** Echo adds nothing, and any other executor at most its answer. */
  lemma SurplusIsBounded(d: D.Device, m: Message, answer: Option<Packet>, bound: nat)
    requires answer.Some? ==> |answer.value| <= bound
    ensures Surplus(d, m, answer) <= 7 * bound
    ensures m.dev in d.executors && d.executors[m.dev] == D.Echo ==> Surplus(d, m, answer) == 0
  {
  }

  lemma {:induction false} TotalIsBounded(j: Joint, steps: seq<Step>, bound: nat)
    requires SyncSteps.Invariant(j) && IsRun(j, steps) && AreDeliveries(steps) && AnswersWithin(steps, bound)
    ensures TotalSurplus(j, steps) <= 7 * bound * Writes(j.host)
    decreases |steps|
  {
    if steps != [] {
      var k := Next(j, steps[0]);
      assert steps[0] in steps;
      DeliveryWrites(j, steps[0]);
      if steps[0].ToDevice? {
        SurplusIsBounded(j.dev, j.host.out[0], steps[0].answer, bound);
      }
      SyncSteps.NextKeeps(j, steps[0]);
      TotalIsBounded(k, steps[1..], bound);
      OneLess(7 * bound, StepSurplus(j, steps[0]), Writes(k.host), Writes(j.host));
    }
  }

  lemma OneLess(cost: nat, surplus: nat, after: nat, before: nat)
    requires surplus <= cost && after <= before && (surplus > 0 ==> after < before)
    ensures surplus + cost * after <= cost * before
  {
    if after < before {
      assert cost * (after + 1) <= cost * before;
    }
  }

  // ---------- Where deliveries end ----------

  /** Some delivery is possible unless both wires are empty. */
  lemma QuietWhenStuck(j: Joint)
    requires forall step :: Enabled(j, step) ==> !IsDelivery(step)
    ensures Theorems.WiresEmpty(j)
  {
    assert Enabled(j, ToHost) ==> !IsDelivery(ToHost);
    assert Enabled(j, ToDevice(None)) ==> !IsDelivery(ToDevice(None));
  }

  /** Both ends are in a session, with nothing on the way and nobody waiting. */
  predicate AtRest(j: Joint) {
    && Theorems.WiresEmpty(j) && Theorems.Established(j)
    && j.host.phase == H.Connected && j.dev.phase == D.Connected && j.dev.queue == []
  }

  /** The end of deliveries: the host is disconnected, or in a session at rest. */
  predicate Settled(j: Joint) {
    Theorems.WiresEmpty(j) && (j.host.phase == H.Disconnected || AtRest(j))
  }

  lemma StuckIsSettled(j: Joint)
    requires SyncSteps.Invariant(j) && forall step :: Enabled(j, step) ==> !IsDelivery(step)
    ensures Settled(j)
  {
    QuietWhenStuck(j);
    if j.host.phase != H.Disconnected {
      Theorems.NobodyWaits(j);
    }
  }

  /** Reconnection converges: from any state of any run, and whatever the executors
      answer, deliveries alone lead to a state without a message in flight, in
      which nobody waits. Their number is bounded by the measure and by what the
      answers are longer than the packets they answer; and so, in advance, for each
      bound on the length of an answer. */
  lemma Converges(start: Joint, steps: seq<Step>, j: Joint, deliveries: seq<Step>)
    requires Theorems.Reachable(start, steps, j)
    requires IsRun(j, deliveries) && AreDeliveries(deliveries)
    ensures |deliveries| <= Measure(j) + TotalSurplus(j, deliveries)
    ensures forall bound: nat :: AnswersWithin(deliveries, bound) ==>
      |deliveries| <= Measure(j) + 7 * bound * Writes(j.host)
    ensures var k := After(j, deliveries);
      (forall step :: Enabled(k, step) ==> !IsDelivery(step)) ==> Settled(k)
  {
    var k := After(j, deliveries);
    Theorems.ReachableHolds(start, steps, j);
    DeliveriesEnd(j, deliveries);
    SyncSteps.RunKeeps(j, deliveries);
    forall bound: nat | AnswersWithin(deliveries, bound)
      ensures |deliveries| <= Measure(j) + 7 * bound * Writes(j.host)
    {
      TotalIsBounded(j, deliveries, bound);
    }
    if forall step :: Enabled(k, step) ==> !IsDelivery(step) {
      StuckIsSettled(k);
    }
  }
}
