/** A session that begins while another Connect is still in flight will be reset
    when that Connect, or the reply to it, arrives: until then the host gets no
    streams. */
module DoomedSessions {
  import opened Protocol
  import opened Streams
  import opened Joint
  import opened SyncSteps
  import H = HostMachine
  import D = DeviceMachine
  import DeviceReceives
  import HostReceives
  import Identity
  import Session

  predicate HasConnect(s: seq<Message>)
    ensures HasConnect(s) <==> exists m :: m in s && m.command == Command.Connect
  {
    s != [] && (s[0].command == Command.Connect || HasConnect(s[1..]))
  }

  /** The messages that arrive before the first Connect. */
  function UpToConnect(s: seq<Message>): (r: seq<Message>)
    ensures forall m :: m in r ==> m in s && m.command != Command.Connect
    ensures !HasConnect(s) ==> r == s
  {
    if s == [] || s[0].command == Command.Connect then [] else [s[0]] + UpToConnect(s[1..])
  }

  lemma {:induction false} UpToConnectAppend(s: seq<Message>, t: seq<Message>)
    ensures HasConnect(s) ==> UpToConnect(s + t) == UpToConnect(s)
    ensures !HasConnect(s) ==> UpToConnect(s + t) == s + UpToConnect(t)
    decreases s
  {
    if s == [] {
      assert s + t == t;
    } else {
      assert (s + t)[1..] == s[1..] + t && (s + t)[0] == s[0];
      UpToConnectAppend(s[1..], t);
      if !HasConnect(s) {
        UpToHead(s[0], s[1..], s + t, UpToConnect(t));
        assert [s[0]] + s[1..] == s;
      }
    }
  }

  lemma UpToHead(head: Message, rest: seq<Message>, all: seq<Message>, tail: seq<Message>)
    requires head.command != Command.Connect && all != [] && all[0] == head && UpToConnect(all[1..]) == rest + tail
    ensures UpToConnect(all) == [head] + rest + tail
  {
    Associative([head], rest, tail);
  }

  lemma InFlightIff(j: Joint)
    ensures ConnectInFlight(j) <==> HasConnect(j.host.out) || HasConnect(j.dev.out)
  {
    CountZero(j.host.out, {Command.Connect});
    CountZero(j.dev.out, {Command.Connect});
  }

  predicate Doomed(j: Joint) {
    Session.InSession(j.host) && (HasConnect(j.host.out) || HasConnect(j.dev.out))
  }

  /** None of the messages of kind `kind` in `s` is about a request of the host. */
  predicate Foreign(h: H.Host, s: seq<Message>, kind: Command) {
    forall m :: m in s && m.command == kind ==> m.host !in h.requests
  }

  /** No request of the host will be answered before the Connect arrives. */
  predicate Unanswered(h: H.Host, d: D.Device) {
    if HasConnect(d.out) then Foreign(h, UpToConnect(d.out), Ok)
    else Foreign(h, d.out, Ok) && Foreign(h, d.queue, Ok) && Foreign(h, UpToConnect(h.out), Command.Open)
  }

  ghost predicate Barren(j: Joint) {
    Doomed(j) ==> j.host.streams == map[] && Unanswered(j.host, j.dev)
  }

  lemma NoConnectInSession(h: H.Host, d: D.Device)
    requires Session.Invariant(h, d)
    ensures !HasConnect(h.out) && !HasConnect(d.out)
  {
    forall m | m in h.out
      ensures m.command != Command.Connect
    {
      assert Session.SentOk(h, d, m);
    }
    forall m | m in d.out
      ensures m.command != Command.Connect
    {
      assert m in Session.Down(d) && Session.DownOk(h, d, m);
    }
  }

  // ---------- The host sends ----------

  /** `e` has sent `more` than `h`, only Opens, Closes and Oks, and what it has
      requested more are new ids. */
  predicate Sends(h: H.Host, e: H.Host, more: seq<Message>) {
    && e.out == h.out + more
    && (forall m :: m in more ==> m.command == Command.Open || m.command == Close || m.command == Ok)
    && (forall r :: r in e.requests ==> r in h.requests || h.nextId <= r)
  }

  /** Every id that has been requested is below the counter. */
  predicate IdsBelow(h: H.Host, d: D.Device) {
    && (forall m :: m in h.out && m.command == Command.Open ==> m.host < h.nextId)
    && (forall m :: m in d.out && m.command == Ok ==> m.host < h.nextId)
    && (forall m :: m in d.queue && m.command == Ok ==> m.host < h.nextId)
  }

  lemma IdsAreBelow(h: H.Host, d: D.Device)
    requires Identity.Invariant(h, d)
    ensures IdsBelow(h, d)
  {
    OpenIdsAppend(h.out, h.queue);
    forall m | (m in d.out || m in d.queue) && m.command == Ok
      ensures m.host < h.nextId
    {
      assert Identity.DownOk(h, d, m);
    }
  }

  /** What the host sends behind the Connect does not bring an answer before it. */
  lemma SendingKeeps(h: H.Host, e: H.Host, d: D.Device, more: seq<Message>)
    requires Unanswered(h, d) && Sends(h, e, more) && (HasConnect(h.out) || HasConnect(d.out)) && IdsBelow(h, d)
    ensures Unanswered(e, d)
  {
    UpToConnectAppend(h.out, more);
  }

  lemma ConnectsAreOld(h: H.Host, e: H.Host, more: seq<Message>)
    requires Sends(h, e, more)
    ensures HasConnect(e.out) <==> HasConnect(h.out)
  {
    assert forall m :: m in e.out <==> m in h.out || m in more;
  }

  /** A host without streams sends no Writes. */
  lemma ProcessQueueSends(h: H.Host) returns (more: seq<Message>)
    requires H.HostOk(h) && h.streams == map[]
    ensures var e := H.ProcessQueue(h); Sends(h, e, more) && e.streams == map[] && e.requests == h.requests
  {
    more := [];
    assert h.out == h.out + [];
    if H.MaySend(h) {
      assert h.queue[0] in h.queue && H.QueuedOk(h, h.queue[0]);
      more := [h.queue[0]];
    }
  }

  /** Without streams, and unless its request is granted, the host handles a
      message of a session by sending, at most, Opens and Closes. */
  lemma HandleSends(h: H.Host, m: Message) returns (more: seq<Message>)
    requires H.HostOk(h) && Session.InSession(h) && h.streams == map[]
    requires m.command == Ok || m.command == Write || m.command == Close
    requires m.command == Ok ==> m.host !in h.requests
    ensures var e := H.Handle(h, m); Sends(h, e, more) && e.streams == map[]
  {
    var c := H.Dispatch(h, m);
    H.DispatchOk(h, m);
    var first := [];
    if m.command == Write {
      var close := CloseMessage(m.host, m.dev);
      H.QueueingCloseOk(h, close);
      first := ProcessQueueSends(h.(queue := h.queue + [close]));
    } else {
      assert c.out == h.out + [] && c.streams == map[] && c.requests == h.requests;
    }
    assert Sends(h, c, first) && c.streams == map[];
    var second := ProcessQueueSends(c);
    more := first + second;
    assert (h.out + first) + second == h.out + more;
  }

  // ---------- A message for the host ----------

  lemma TakenUnanswered(h: H.Host, d: D.Device)
    requires d.out != [] && d.out[0].command != Command.Connect && Unanswered(h, d)
    ensures var f := HostReceives.TakenByHost(d);
      Unanswered(h, f) && (HasConnect(d.out) <==> HasConnect(f.out))
    ensures d.out[0].command == Ok ==> d.out[0].host !in h.requests
  {
    assert UpToConnect(d.out) == [d.out[0]] + UpToConnect(d.out[1..]);
  }

  /** When the handshake is over, the requests are all still queued. */
  lemma QueuedUnanswered(h: H.Host, d: D.Device)
    requires H.HostOk(h) && h.phase == H.WaitingForConnection && Identity.Invariant(h, d)
    ensures Foreign(h, h.out, Command.Open) && Foreign(h, d.out, Ok) && Foreign(h, d.queue, Ok)
  {
    OpenIdsAppend(h.out, h.queue);
    DistinctOpensAppend(h.out, h.queue);
    forall m | (m in d.out || m in d.queue) && m.command == Ok
      ensures m.host !in h.requests
    {
      assert Identity.DownOk(h, d, m);
    }
  }

  ghost predicate Known(j: Joint) {
    Invariant(j) && Identity.Invariant(j.host, j.dev)
  }

  /** What an accepted reply makes of a host that awaits it. */
  function Accepted(h: H.Host): H.Host {
    H.ProcessQueue(h.(phase := H.Connected))
  }

  lemma AcceptedUnanswered(h: H.Host, d: D.Device)
    requires H.HostOk(h) && h.phase == H.WaitingForConnection && Identity.Invariant(h, d) && d.out != []
    requires HasConnect(Accepted(h).out) || HasConnect(d.out[1..])
    ensures Accepted(h).streams == map[] && Unanswered(Accepted(h), HostReceives.TakenByHost(d))
  {
    var c, f := h.(phase := H.Connected), HostReceives.TakenByHost(d);
    QueuedUnanswered(h, d);
    IdsAreBelow(h, d);
    var more := ProcessQueueSends(c);
    ConnectsAreOld(c, Accepted(h), more);
    assert Unanswered(c, f);
    SendingKeeps(c, Accepted(h), f, more);
  }

  lemma ReplyIsBarren(j: Joint)
    requires Known(j) && j.host.phase == H.WaitingForConnection && j.dev.out != []
    requires j.dev.out[0].command == Command.Connect && VersionMatches(j.dev.out[0].data)
    ensures Barren(Next(j, ToHost))
  {
    var k := Next(j, ToHost);
    assert k.host == Accepted(j.host);
    if Doomed(k) {
      AcceptedUnanswered(j.host, j.dev);
    }
  }

  lemma SessionMessageIsBarren(j: Joint)
    requires Known(j) && Doomed(j) && Barren(j) && j.dev.out != [] && !Resets(j.host, j.dev.out[0])
    ensures Barren(Next(j, ToHost))
  {
    var h, d, k := j.host, j.dev, Next(j, ToHost);
    var m := d.out[0];
    assert m in d.out && H.Supported(m);
    TakenUnanswered(h, d);
    IdsAreBelow(h, d);
    var more := HandleSends(h, m);
    SendingKeeps(h, k.host, k.dev, more);
  }

  lemma ToHostIsBarren(j: Joint)
    requires Known(j) && Barren(j) && j.dev.out != []
    ensures Barren(Next(j, ToHost))
  {
    var h, d, k := j.host, j.dev, Next(j, ToHost);
    var m := d.out[0];
    assert m in d.out;
    if Resets(h, m) {
      ResetsHow(h, m);
      H.ResetOk(h, true);
      H.ResetOk(h, false);
    } else if h.phase == H.WaitingForConnection {
      ReplyIsBarren(j);
    } else if Doomed(j) {
      SessionMessageIsBarren(j);
    } else if Session.InSession(h) {
      InFlightIff(j);
      HostReceives.HandleKeeps(h, d);
      NoConnectInSession(k.host, k.dev);
    }
  }

  // ---------- A message for the device ----------

  /** Handling `m` adds no Ok to the device's queue but one about `m` itself. */
  lemma EffectAdds(d: D.Device, m: Message, answer: Option<Packet>)
    ensures var e := D.Effect(d, m, answer);
      && e.out == d.out
      && forall x :: x in e.queue && x.command == Ok ==>
           x in d.queue || (x.host == m.host && (m.command == Command.Open || m.command == Write))
  {
    if m.command == Write && d.phase != D.Disconnected {
      WriteAdds(d, m, answer);
    }
  }

  lemma WriteAdds(d: D.Device, m: Message, answer: Option<Packet>)
    ensures var e := D.ReceivedWrite(d, m, answer);
      e.out == d.out && forall x :: x in e.queue && x.command == Ok ==> x in d.queue || x.host == m.host
  {
  }

  lemma AnswersAreForeign(h: H.Host, d: D.Device, answer: Option<Packet>)
    requires Identity.Invariant(h, d) && h.out != [] && !HasConnect(d.out) && Unanswered(h, d)
    requires h.out[0].command == Command.Connect ==> VersionMatches(h.out[0].data)
    ensures var f := D.Handle(d, h.out[0], answer); Foreign(h, f.out, Ok) && Foreign(h, f.queue, Ok)
  {
    var m := h.out[0];
    var e, f := D.Effect(d, m, answer), D.Handle(d, m, answer);
    EffectAdds(d, m, answer);
    D.DrainKeepsOrder(e);
    assert m in h.out && Identity.UpOk(h, d, m);
    assert m.command == Command.Open ==> m in UpToConnect(h.out);
    forall x | (x in f.out || x in f.queue) && x.command == Ok
      ensures x.host !in h.requests
    {
      assert x in f.out + f.queue;
    }
  }

  /** A Connect that has reached the device is answered, behind what was sent before. */
  lemma ConnectIsPassedOn(h: H.Host, d: D.Device, answer: Option<Packet>)
    requires h.out != [] && h.out[0].command == Command.Connect && VersionMatches(h.out[0].data)
    ensures HasConnect(D.Handle(d, h.out[0], answer).out)
  {
    TakeConnect(d, h.out[0], answer);
    assert ConnectMessage() in D.Handle(d, h.out[0], answer).out;
  }

  lemma DeviceKeepsUnanswered(h: H.Host, d: D.Device, answer: Option<Packet>)
    requires Identity.Invariant(h, d) && h.out != [] && Unanswered(h, d)
    requires h.out[0].command == Command.Connect ==> VersionMatches(h.out[0].data)
    ensures Unanswered(h.(out := h.out[1..]), D.Handle(d, h.out[0], answer))
  {
    var m, f := h.out[0], D.Handle(d, h.out[0], answer);
    EffectAdds(d, m, answer);
    D.DrainKeepsOrder(D.Effect(d, m, answer));
    if HasConnect(d.out) {
      var more := f.out[|d.out|..];
      assert f.out == d.out + more;
      UpToConnectAppend(d.out, more);
      assert HasConnect(f.out) by {
        var x :| x in d.out && x.command == Command.Connect;
        assert x in f.out;
      }
    } else {
      AnswersAreForeign(h, d, answer);
      if m.command == Command.Connect {
        ConnectIsPassedOn(h, d, answer);
      } else {
        assert UpToConnect(h.out) == [m] + UpToConnect(h.out[1..]);
      }
    }
  }

  lemma ToDeviceIsBarren(j: Joint, answer: Option<Packet>)
    requires Known(j) && Barren(j) && Enabled(j, ToDevice(answer))
    ensures Barren(Next(j, ToDevice(answer)))
  {
    var h, d, k := j.host, j.dev, Next(j, ToDevice(answer));
    assert h.out[0] in h.out;
    if Doomed(j) {
      DeviceKeepsUnanswered(h, d, answer);
    } else if Session.InSession(h) {
      InFlightIff(j);
      SessionEffect(h, d, answer);
      DeviceReceives.DrainKeeps(DeviceReceives.TakenByDevice(h), D.Effect(d, h.out[0], answer));
      NoConnectInSession(k.host, k.dev);
    }
  }

  // ---------- A call of the application ----------

  lemma RequestIsBarren(j: Joint, step: Step)
    requires Known(j) && Barren(j) && Enabled(j, step) && IsRequest(step)
    ensures Barren(Next(j, step))
  {
    var h, k := j.host, Next(j, step);
    if Doomed(j) {
      assert step.CreateStream?;
      RequestUnanswered(h, j.dev, step.tag);
    } else if Session.InSession(h) {
      InFlightIff(j);
      RequestKeepsSession(j, step);
      NoConnectInSession(k.host, k.dev);
    } else {
      NoRequestBefore(j, step);
    }
  }

  lemma RequestUnanswered(h: H.Host, d: D.Device, tag: Bytes)
    requires H.HostOk(h) && h.streams == map[] && Identity.Invariant(h, d) && Unanswered(h, d)
    requires HasConnect(h.out) || HasConnect(d.out)
    ensures H.CreateStream(h, tag).streams == map[] && Unanswered(H.CreateStream(h, tag), d)
  {
    H.RequestingOk(h, tag);
    IdsAreBelow(h, d);
    var more := ProcessQueueSends(H.Requesting(h, tag));
    SendingKeeps(h, H.CreateStream(h, tag), d, more);
  }

  /** Outside a session the application can only ask for streams, and nothing is sent. */
  lemma NoRequestBefore(j: Joint, step: Step)
    requires H.HostOk(j.host) && !Session.InSession(j.host) && Enabled(j, step) && IsRequest(step)
    ensures step.CreateStream? && Next(j, step).host == H.Requesting(j.host, step.tag)
    ensures !Session.InSession(Next(j, step).host)
  {
  }

  lemma ConnectIsBarren(j: Joint)
    requires Enabled(j, Step.Connect)
    ensures Barren(Next(j, Step.Connect))
  {
    var q := j.host.(queue := j.host.queue + [ConnectMessage()]);
    assert q.queue[0] == ConnectMessage();
  }

  lemma CloseAllIsBarren(j: Joint, order: seq<nat>)
    requires Enabled(j, CloseAll(order))
    ensures Barren(Next(j, CloseAll(order)))
  {
    assert H.CloseAll(j.host, order).phase == H.Disconnected;
  }

  lemma NextIsBarren(j: Joint, step: Step)
    requires Known(j) && Barren(j) && Enabled(j, step)
    ensures Barren(Next(j, step))
  {
    match step
    case ToHost => ToHostIsBarren(j);
    case ToDevice(answer) => ToDeviceIsBarren(j, answer);
    case Connect => ConnectIsBarren(j);
    case CloseAll(order) => CloseAllIsBarren(j, order);
    case _ => RequestIsBarren(j, step);
  }
}
