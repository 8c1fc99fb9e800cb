/** A host that has connected always ends in a session, whatever an earlier host
    has left behind, unless the application closes the connection. */
module Reconnection {
  import opened Protocol
  import opened Streams
  import opened Joint
  import opened SyncSteps
  import opened Convergence
  import H = HostMachine
  import HostReceives
  import Session
  import Sync
  import Theorems

  /** The host reads from a Refuse the reason for which the device sent it. */
  lemma RefuseIsUnderstood(reason: RefuseReason)
    ensures ToRefuseReason(ReadUint32(RefuseMessage(reason).data)) == reason
  {
    ReadBigEndian(0, []);
    ReadBigEndian(1, []);
    ReadBigEndian(2, BigEndian(VERSION));
    assert BigEndian(0) + [] == BigEndian(0) && BigEndian(1) + [] == BigEndian(1);
  }

  /** The device is going to send, or has sent, something that makes a
      disconnected host connect again. */
  ghost predicate WillBeRoused(j: Joint) {
    Count(j.host.out, {Command.Connect}) > 0 || exists m :: m in j.dev.out && m.command != Invalid
  }

  /** The host is trying to connect, is connected, or will try again by itself. */
  ghost predicate WillConnect(j: Joint) {
    j.host.phase != H.Disconnected || WillBeRoused(j)
  }

  lemma ConnectInFlightRouses(j: Joint)
    requires ConnectInFlight(j)
    ensures WillBeRoused(j)
  {
    CountZero(j.dev.out, {Command.Connect});
  }

  /** While a Connect is in flight, one is left in flight by the delivery of any
      message that resets the host without a new Connect. */
  lemma ResetIsRoused(j: Joint)
    requires Invariant(j) && j.dev.out != [] && Resets(j.host, j.dev.out[0])
    requires j.host.phase != H.Disconnected && Next(j, ToHost).host == H.Reset(j.host, false)
    ensures WillBeRoused(Next(j, ToHost))
  {
    var h, d, k := j.host, j.dev, Next(j, ToHost);
    H.ResetOk(h, false);
    H.ResetOk(h, true);
    if Session.InSession(h) && !ConnectInFlight(j) {
      HostReceives.OnlyOkAndWrite(h, d);
    } else if Count(h.out, {Command.Connect}) > 0 {
      assert k.host.out == h.out + [];
    } else {
      ConnectBehindHead(j);
    }
  }

  /** A Connect on the wire to the host that is not the next message stays there. */
  lemma ConnectBehindHead(j: Joint)
    requires Invariant(j) && j.dev.out != [] && Resets(j.host, j.dev.out[0])
    requires Count(j.host.out, {Command.Connect}) == 0
    requires j.host.phase == H.WaitingForConnection || (Session.InSession(j.host) && ConnectInFlight(j))
    requires Next(j, ToHost).host == H.Reset(j.host, false)
    ensures WillBeRoused(Next(j, ToHost))
  {
    var h, d, k := j.host, j.dev, Next(j, ToHost);
    H.ResetOk(h, false);
    H.ResetOk(h, true);
    if h.phase == H.WaitingForConnection {
      if h.out != [] {
        LastCounts(h.out);
      }
      LastCounts(d.out);
    }
    assert d.out[0].command != Command.Connect;
    assert Count(k.dev.out, {Command.Connect}) > 0;
    CountZero(k.dev.out, {Command.Connect});
  }

  lemma ToHostConnects(j: Joint)
    requires Invariant(j) && j.dev.out != [] && WillConnect(j)
    ensures WillConnect(Next(j, ToHost))
  {
    var h, m := j.host, j.dev.out[0];
    var k := Next(j, ToHost);
    assert m in j.dev.out;
    H.ResetOk(h, true);
    if Resets(h, m) {
      ResetsHow(h, m);
      if k.host == H.Reset(h, false) && h.phase != H.Disconnected {
        ResetIsRoused(j);
      }
    } else if h.phase == H.WaitingForConnection {
      TakeReply(j);
    } else if Session.InSession(h) {
      NoNewHandshake(h, m);
    } else {
      assert k.host == h;
      if Count(h.out, {Command.Connect}) == 0 {
        var x :| x in j.dev.out && x.command != Invalid;
        assert x in k.dev.out;
      }
    }
  }

  lemma ToDeviceConnects(j: Joint, answer: Option<Packet>)
    requires Invariant(j) && Enabled(j, ToDevice(answer)) && WillConnect(j)
    ensures WillConnect(Next(j, ToDevice(answer)))
  {
    var m, k := j.host.out[0], Next(j, ToDevice(answer));
    assert m in j.host.out;
    Sync.DeviceWires(j.dev, m, answer);
    if Count(j.host.out, {Command.Connect}) > 0 {
      DeviceKeepsConnects(j, answer);
      ConnectInFlightRouses(k);
    } else if WillBeRoused(j) {
      var x :| x in j.dev.out && x.command != Invalid;
      assert x in k.dev.out;
    }
  }

  /** A host that nothing has roused yet is as it was. */
  lemma StaysIdle(j: Joint, delivery: Step)
    requires Invariant(j) && Enabled(j, delivery) && IsDelivery(delivery) && !WillConnect(j)
    ensures Next(j, delivery).host == j.host.(out := Next(j, delivery).host.out)
  {
    if delivery == ToHost {
      assert j.dev.out[0] in j.dev.out;
    }
  }

  lemma {:induction false} DeliveriesConnect(j: Joint, deliveries: seq<Step>)
    requires Invariant(j) && IsRun(j, deliveries) && AreDeliveries(deliveries)
    ensures var k := After(j, deliveries);
      (WillConnect(j) ==> WillConnect(k)) && (WillConnect(k) || k.host == j.host.(out := k.host.out))
    decreases |deliveries|
  {
    if deliveries != [] {
      assert deliveries[0] in deliveries;
      if WillConnect(j) {
        match deliveries[0] {
          case ToHost => ToHostConnects(j);
          case ToDevice(answer) => ToDeviceConnects(j, answer);
        }
      } else {
        StaysIdle(j, deliveries[0]);
      }
      NextKeeps(j, deliveries[0]);
      DeliveriesConnect(Next(j, deliveries[0]), deliveries[1..]);
    }
  }

  /** With nothing on the way, nothing can rouse the host. */
  lemma SettledMeansAtRest(j: Joint)
    requires Settled(j) && WillConnect(j)
    ensures AtRest(j)
  {
  }

  /** From any state of any run, with whatever is in flight and whatever executors
      answer: any series of deliveries that is not cut short ends in a session in which nobody waits, or
      the host was disconnected and not a single message has roused it. It does
      end in a session if the host is not disconnected, if a Connect is in flight,
      or if anything but an Invalid message is on its way to the host. */
  lemma ReachesSession(start: Joint, steps: seq<Step>, j: Joint, deliveries: seq<Step>)
    requires Theorems.Reachable(start, steps, j)
    requires IsRun(j, deliveries) && AreDeliveries(deliveries)
    ensures var k := After(j, deliveries);
      (forall step :: Enabled(k, step) ==> !IsDelivery(step)) ==>
        && (WillConnect(j) ==> AtRest(k))
        && (AtRest(k) || (j.host.phase == H.Disconnected && k.host == j.host.(out := [])))
  {
    Theorems.ReachableHolds(start, steps, j);
    DeliveriesConnect(j, deliveries);
    Converges(start, steps, j, deliveries);
    var k := After(j, deliveries);
    if Settled(k) && WillConnect(k) {
      SettledMeansAtRest(k);
    }
  }

  /** Once the application has connected, and until it closes, the host keeps
      trying to connect, in every state of the run. */
  lemma OnlyCloseGivesUp(start: Joint, steps: seq<Step>, j: Joint, step: Step)
    requires Theorems.Reachable(start, steps, j) && Enabled(j, step)
    requires step == Step.Connect || (WillConnect(j) && !step.CloseAll?)
    ensures WillConnect(Next(j, step))
  {
    Theorems.ReachableHolds(start, steps, j);
    match step
    case ToHost => ToHostConnects(j);
    case ToDevice(answer) => ToDeviceConnects(j, answer);
    case Connect =>
      var q := j.host.(queue := j.host.queue + [ConnectMessage()]);
      assert q.queue[0] == ConnectMessage();
    case _ => RequestConnects(j, step);
  }

  lemma {:induction false} FragmentsConnect(h: H.Host, id: nat, fragments: seq<Bytes>)
    requires h.phase != H.Disconnected
    ensures H.EnqueueFragments(h, id, fragments).phase != H.Disconnected
    decreases fragments
  {
    if fragments != [] && id in h.streams {
      FragmentsConnect(H.ProcessQueue(H.Queueing(h, id, fragments[0])), id, fragments[1..]);
    }
  }

  /** The application has no stream to write to or to close, and may not create
      one, when it is disconnected. */
  lemma RequestConnects(j: Joint, step: Step)
    requires H.HostOk(j.host) && Enabled(j, step) && IsRequest(step)
    ensures Next(j, step).host.phase != H.Disconnected
  {
    assert j.host.phase != H.Disconnected;
    if step.WritePacket? {
      FragmentsConnect(j.host, step.id, Fragments(Wrap(step.packet)));
    }
  }
}
