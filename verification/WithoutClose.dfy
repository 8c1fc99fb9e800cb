/** Sessions in which the application closes nothing: the host drains its queue,
    the device's window is one, and echo streams return everything. */
module WithoutClose {
  import opened Protocol
  import opened Streams
  import opened Joint
  import opened SyncSteps
  import opened Theorems
  import Sync
  import H = HostMachine
  import D = DeviceMachine
  import Session
  import HostReceives
  import DeviceReceives

  predicate ClosesNothing(step: Step) {
    !step.RequestClose? && !step.CloseAll?
  }

  /** The host has the streams of all Writes under way to it. */
  ghost predicate WritesKnown(h: H.Host, d: D.Device) {
    forall x :: x in Session.Down(d) && x.command == Write ==> x.host in h.streams
  }

  /** No Close anywhere, and every Write is for a stream the host has. */
  ghost predicate NothingClosed(h: H.Host, d: D.Device) {
    && (forall m :: m in h.out ==> m.command != Close)
    && (forall m :: m in h.queue ==> m.command != Close)
    && WritesKnown(h, d)
    && d.released == 0
  }

  /** ... and the host has nothing queued unless it waits for an Ok. */
  ghost predicate Unclosed(h: H.Host, d: D.Device) {
    NothingClosed(h, d) && (h.phase == H.Connected ==> h.queue == [])
  }

  lemma ProcessQueueUnclosed(h: H.Host, d: D.Device)
    requires H.HostOk(h) && Session.InSession(h) && NothingClosed(h, d)
    ensures Unclosed(H.ProcessQueue(h), d)
  {
    if H.MaySend(h) {
      assert h.queue[0] in h.queue && H.QueuedOk(h, h.queue[0]);
      assert forall m :: m in h.queue[1..] ==> m in h.queue;
    }
  }

  lemma {:induction false} FragmentsUnclosed(h: H.Host, d: D.Device, id: nat, fragments: seq<Bytes>)
    requires H.HostOk(h) && Session.InSession(h) && Unclosed(h, d)
    ensures Unclosed(H.EnqueueFragments(h, id, fragments), d)
    decreases fragments
  {
    if fragments != [] && id in h.streams {
      var q := H.Queueing(h, id, fragments[0]);
      H.QueueingOk(h, id, fragments[0]);
      H.ProcessQueueOk(q);
      InSessionStays(q);
      ProcessQueueUnclosed(q, d);
      FragmentsUnclosed(H.ProcessQueue(q), d, id, fragments[1..]);
    }
  }

  lemma RequestUnclosed(j: Joint, step: Step)
    requires H.HostOk(j.host) && Session.InSession(j.host) && Unclosed(j.host, j.dev)
    requires Enabled(j, step) && (step.CreateStream? || step.WritePacket?)
    ensures Unclosed(Next(j, step).host, j.dev)
  {
    match step
    case CreateStream(tag) =>
      H.RequestingOk(j.host, tag);
      ProcessQueueUnclosed(H.Requesting(j.host, tag), j.dev);
    case WritePacket(id, packet) =>
      FragmentsUnclosed(j.host, j.dev, id, Fragments(Wrap(packet)));
  }

  lemma OkUnclosed(h: H.Host, d: D.Device)
    requires H.HostOk(h) && d.out != [] && d.out[0].command == Ok && NothingClosed(h, d)
    ensures NothingClosed(HostReceives.Acknowledged(h, d.out[0]), HostReceives.TakenByHost(d))
  {
    HostReceives.TakenDown(d);
  }

  lemma WriteUnclosed(h: H.Host, d: D.Device)
    requires d.out != [] && d.out[0].command == Write && NothingClosed(h, d)
    ensures NothingClosed(H.HandleWrite(h, d.out[0]), HostReceives.TakenByHost(d))
    ensures H.HandleWrite(h, d.out[0]).phase == h.phase
  {
    HostReceives.TakenDown(d);
    assert d.out[0] in Session.Down(d);
  }

  lemma DispatchUnclosed(h: H.Host, d: D.Device)
    requires H.HostOk(h) && Session.Invariant(h, d) && Unclosed(h, d) && d.out != []
    ensures var e := H.Dispatch(h, d.out[0]);
      H.HostOk(e) && Session.InSession(e) && NothingClosed(e, HostReceives.TakenByHost(d))
  {
    var m := d.out[0];
    HostReceives.OnlyOkAndWrite(h, d);
    H.DispatchOk(h, m);
    if m.command == Ok {
      HostReceives.TakeOkKeeps(h, d);
      OkUnclosed(h, d);
    } else {
      H.DispatchInSession(h, m);
      WriteUnclosed(h, d);
    }
  }

  lemma ToHostUnclosed(h: H.Host, d: D.Device)
    requires H.HostOk(h) && Session.Invariant(h, d) && Unclosed(h, d) && d.out != []
    ensures Unclosed(H.Handle(h, d.out[0]), HostReceives.TakenByHost(d))
  {
    HostReceives.OnlyOkAndWrite(h, d);
    DispatchUnclosed(h, d);
    ProcessQueueUnclosed(H.Dispatch(h, d.out[0]), HostReceives.TakenByHost(d));
  }

  lemma WrittenKnown(h: H.Host, d: D.Device, e: D.Device, m: Message, fragments: seq<Bytes>)
    requires WritesKnown(h, d) && m.host in h.streams && DeviceReceives.IsWritten(d, e, m, fragments)
    ensures WritesKnown(h, e)
  {
    assert Session.Down(e) == Session.Down(d) + DeviceReceives.Answer(m, fragments);
    DeviceReceives.AnswerShape(m, fragments, 0);
  }

  lemma EffectUnclosed(h: H.Host, d: D.Device, answer: Option<Packet>)
    requires D.StreamsOk(d) && Session.Invariant(h, d) && Unclosed(h, d) && h.out != []
    ensures var e := D.Effect(d, h.out[0], answer); WritesKnown(h, e) && e.released == 0
  {
    var m := h.out[0];
    var e := D.Effect(d, m, answer);
    assert m in h.out && Session.SentOk(h, d, m);
    match m.command
    case Open => DeviceReceives.OpenDown(d, e, m);
    case Write =>
      DeviceReceives.WriteIsPaired(h, d);
      WriteEffect(d, m, answer);
      WrittenKnown(h, d, e, m, D.ResponseFragments(D.Response(d, m, answer)));
    case Ok => assert Session.Down(e) == Session.Down(d);
  }

  lemma ToDeviceUnclosed(h: H.Host, d: D.Device, answer: Option<Packet>)
    requires D.StreamsOk(d) && Session.Invariant(h, d) && Unclosed(h, d) && h.out != []
    ensures Unclosed(DeviceReceives.TakenByDevice(h), D.Handle(d, h.out[0], answer))
  {
    var e := D.Effect(d, h.out[0], answer);
    EffectUnclosed(h, d, answer);
    D.DrainKeepsOrder(e);
    D.DrainFrame(e);
    DeviceReceives.TakenUp(h);
  }

  ghost predicate Inv(j: Joint) {
    Invariant(j) && (Established(j) ==> Unclosed(j.host, j.dev))
  }

  /** A session starts only with the reply to the last Connect. */
  lemma StartsUnclosed(j: Joint)
    requires Invariant(j) && j.host.phase == H.WaitingForConnection && j.dev.out != []
    ensures Established(Next(j, ToHost)) ==> Unclosed(Next(j, ToHost).host, Next(j, ToHost).dev)
  {
    var h, m := j.host, j.dev.out[0];
    assert m in j.dev.out;
    if Resets(h, m) {
      ResetsHow(h, m);
      H.ResetOk(h, true);
      H.ResetOk(h, false);
    } else {
      ReplyUnclosed(j);
    }
  }

  lemma ReplyUnclosed(j: Joint)
    requires Invariant(j) && j.host.phase == H.WaitingForConnection && j.dev.out != []
    requires j.dev.out[0].command == Command.Connect && VersionMatches(j.dev.out[0].data)
    ensures Established(Next(j, ToHost)) ==> Unclosed(Next(j, ToHost).host, Next(j, ToHost).dev)
  {
    var h, k := j.host, Next(j, ToHost);
    var c := h.(phase := H.Connected);
    H.DispatchOk(h, j.dev.out[0]);
    assert k.host == H.ProcessQueue(c);
    if h.out != [] {
      LastCounts(h.out);
      HostKeepsConnects(c);
    } else if k.dev.out != [] {
      LastCounts(k.dev.out);
    } else {
      assert forall x :: x in c.queue ==> H.QueuedOk(h, x);
      ProcessQueueUnclosed(c, k.dev);
    }
  }

  /** An established session was established before the step, or started with it. */
  lemma WasEstablished(j: Joint, step: Step)
    requires Invariant(j) && Enabled(j, step) && Established(Next(j, step))
    ensures Established(j) || (step == ToHost && j.host.phase == H.WaitingForConnection)
  {
    var k := Next(j, step);
    if step == ToHost {
      assert j.dev.out[0] in j.dev.out;
      if Resets(j.host, j.dev.out[0]) {
        ResetsHow(j.host, j.dev.out[0]);
        H.ResetOk(j.host, true);
        H.ResetOk(j.host, false);
      } else if Session.InSession(j.host) && ConnectInFlight(j) {
        StaysDoomed(j);
      }
    } else if step.ToDevice? {
      if ConnectInFlight(j) {
        DeviceKeepsConnects(j, step.answer);
      }
    } else {
      OnlyRequestsEstablish(j, step);
    }
  }

  lemma OnlyRequestsEstablish(j: Joint, step: Step)
    requires Invariant(j) && Enabled(j, step) && !step.ToHost? && !step.ToDevice? && Established(Next(j, step))
    ensures Established(j)
  {
    var k := Next(j, step);
    Sync.HostWires(j, step);
    if Count(j.host.out, {Command.Connect}) > 0 {
      ConnectStays(j.host.out, k.host.out);
    }
    if step == Step.Connect {
      ConnectAwaits(j);
      var q := j.host.(queue := j.host.queue + [ConnectMessage()]);
      assert q.queue[0] == ConnectMessage();
    }
  }

  lemma NextUnclosed(j: Joint, step: Step)
    requires Inv(j) && Enabled(j, step) && ClosesNothing(step)
    ensures Inv(Next(j, step))
  {
    NextKeeps(j, step);
    if Established(Next(j, step)) {
      WasEstablished(j, step);
      if !Established(j) {
        StartsUnclosed(j);
      } else {
        match step
        case ToHost => ToHostUnclosed(j.host, j.dev);
        case ToDevice(answer) => ToDeviceUnclosed(j.host, j.dev, answer);
        case CreateStream(_) => RequestUnclosed(j, step);
        case WritePacket(_, _) => RequestUnclosed(j, step);
        case Connect =>
      }
    }
  }

  lemma {:induction false} RunUnclosed(j: Joint, steps: seq<Step>)
    requires Inv(j) && IsRun(j, steps) && forall step :: step in steps ==> ClosesNothing(step)
    ensures Inv(After(j, steps))
    decreases |steps|
  {
    if steps != [] {
      NextUnclosed(j, steps[0]);
      RunUnclosed(Next(j, steps[0]), steps[1..]);
    }
  }

  /** A session in which the application closes nothing, after any run `before`
      with any closes, resets and sessions of its own: the device has at most one
      unanswered Write, the host sends whatever it has queued, and at rest every
      request has been granted and every echo stream has returned exactly the
      packets written to it. */
  lemma EchoesEverything(start: Joint, before: seq<Step>, i: Joint, steps: seq<Step>, j: Joint)
    requires Reachable(start, before, i) && !Established(i)
    requires IsRun(i, steps) && j == After(i, steps) && Established(j)
    requires forall step :: step in steps ==> ClosesNothing(step)
    ensures Count(j.dev.out, {Write}) + Count(j.host.out, {Ok}) <= 1
    ensures j.host.queue != [] ==> j.host.phase == H.Waiting
    ensures WiresEmpty(j) ==> j.host.requests == {} && j.host.queue == []
    ensures WiresEmpty(j) ==> forall id :: id in j.host.streams ==> EchoComplete(j, id)
  {
    ReachableHolds(start, before, i);
    RunUnclosed(i, steps);
    RunsConcatenate(start, before, steps);
    DeviceWindow(start, before + steps, j);
    if WiresEmpty(j) {
      NoDeadlock(start, before + steps, j);
      NothingLeaks(start, before + steps, j);
      forall id | id in j.host.streams
        ensures EchoComplete(j, id)
      {
        Resynchronised(start, before + steps, j);
        if j.dev.executors[j.host.streams[id].dev] == D.Echo {
          Echoes(start, before + steps, j, id);
        }
      }
    }
  }

  /** The stream has an executor, and an echo executor has returned everything. */
  ghost predicate EchoComplete(j: Joint, id: nat)
    requires id in j.host.streams
  {
    var s := j.host.streams[id];
    && s.dev in j.dev.executors
    && (j.dev.executors[s.dev] == D.Echo ==> s.got == s.wrote)
  }
}
