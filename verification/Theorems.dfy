/** What the protocol guarantees in every state of every run. */
module Theorems {
  import opened Protocol
  import opened Streams
  import opened Joint
  import opened SyncSteps
  import Sync
  import H = HostMachine
  import D = DeviceMachine
  import Session

  /** The host is connected and no Connect is in flight either way. */
  predicate Established(j: Joint) {
    Session.InSession(j.host) && !ConnectInFlight(j)
  }

  predicate WiresEmpty(j: Joint) {
    j.host.out == [] && j.dev.out == []
  }

  /** A state of some run from `start`. */
  ghost predicate Reachable(start: Joint, steps: seq<Step>, j: Joint) {
    Start(start) && IsRun(start, steps) && j == After(start, steps)
  }

  lemma ReachableHolds(start: Joint, steps: seq<Step>, j: Joint)
    requires Reachable(start, steps, j)
    ensures Invariant(j)
    ensures Established(j) ==> Session.Invariant(j.host, j.dev)
  {
    StartHolds(start);
    RunKeeps(start, steps);
  }

  /** Resynchronisation: whatever resets, closes and crossed handshakes came
      before, the stream tables of an established session agree. A device stream
      that the host does not have is known to the host as soon as an Ok that is
      under way arrives, or is closed by a Close that is under way. */
  lemma Resynchronised(start: Joint, steps: seq<Step>, j: Joint)
    requires Reachable(start, steps, j) && Established(j)
    ensures forall id :: id in j.host.streams ==>
      var dev := j.host.streams[id].dev;
      dev in j.dev.streams && j.dev.streams[dev].host == id && j.dev.streams[dev].dev == dev
    ensures forall dev :: dev in j.dev.streams ==>
      var id := j.dev.streams[dev].host;
      || (id in j.host.streams && j.host.streams[id].dev == dev)
      || (id in j.host.requests && OkMessage(id, dev) in j.dev.out + j.dev.queue)
      || (id !in j.host.streams && CloseMessage(id, dev) in j.host.out)
    ensures forall id :: id in j.host.requests ==>
      id in OpenIds(j.host.out + j.host.queue) || exists dev :: dev in j.dev.streams && j.dev.streams[dev].host == id
  {
    ReachableHolds(start, steps, j);
    forall dev | dev in j.dev.streams
      ensures Session.Accounted(j.host, j.dev, dev)
    {
    }
  }

  /** Stop-and-wait: exactly one Open, Write or Ok accounts for a waiting host. */
  lemma StopAndWait(start: Joint, steps: seq<Step>, j: Joint)
    requires Reachable(start, steps, j) && Established(j)
    ensures Count(j.host.out, {Open, Write}) + Count(j.dev.queue, {Ok}) + Count(j.dev.out, {Ok})
         == if j.host.phase == H.Waiting then 1 else 0
  {
    ReachableHolds(start, steps, j);
    CountAppend(j.dev.out, j.dev.queue, {Ok});
  }

  /** The device's window: more than one unanswered Write can only come from
      Close messages that released the device while it waited. */
  lemma DeviceWindow(start: Joint, steps: seq<Step>, j: Joint)
    requires Reachable(start, steps, j) && Established(j)
    ensures Count(j.dev.out, {Write}) + Count(j.host.out, {Ok})
         <= (if j.dev.phase == D.Waiting then 1 else 0) + j.dev.released
  {
    ReachableHolds(start, steps, j);
  }

  lemma NobodyWaits(j: Joint)
    requires Invariant(j) && Session.Invariant(j.host, j.dev) && WiresEmpty(j)
    ensures j.host.phase == H.Connected && j.dev.phase == D.Connected && j.dev.queue == []
  {
  }

  /** No deadlock: when nothing is in flight, nobody waits and the device has
      nothing queued. */
  lemma NoDeadlock(start: Joint, steps: seq<Step>, j: Joint)
    requires Reachable(start, steps, j) && Established(j) && WiresEmpty(j)
    ensures j.host.phase == H.Connected && j.dev.phase == D.Connected && j.dev.queue == []
  {
    ReachableHolds(start, steps, j);
    NobodyWaits(j);
  }

  /** When nothing is in flight the stream tables are the same, so that nothing has
      leaked, and the requests are those whose Open the host has still queued. */
  lemma NothingLeaks(start: Joint, steps: seq<Step>, j: Joint)
    requires Reachable(start, steps, j) && Established(j) && WiresEmpty(j)
    ensures forall id :: id in j.host.streams ==>
      var dev := j.host.streams[id].dev; dev in j.dev.streams && j.dev.streams[dev].host == id
    ensures forall dev :: dev in j.dev.streams ==>
      var id := j.dev.streams[dev].host; id in j.host.streams && j.host.streams[id].dev == dev
    ensures j.host.requests == OpenIds(j.host.queue)
  {
    ReachableHolds(start, steps, j);
    NobodyWaits(j);
    Resynchronised(start, steps, j);
    RequestsAreQueued(j.host, j.dev);
  }

  /** A request whose Open has arrived has a device stream, and so, with nothing in
      flight, it is no longer a request. */
  lemma RequestIsQueued(h: H.Host, d: D.Device, r: nat)
    requires Session.NothingLost(h, d) && Session.TablesOk(h, d) && r in h.requests && r !in h.streams
    requires h.out == [] && d.out == [] && d.queue == []
    ensures r in OpenIds(h.queue)
  {
    assert Session.Up(h) == h.queue && Session.Down(d) == [];
    forall k | k in d.streams
      ensures d.streams[k].host != r
    {
      assert Session.Accounted(h, d, k);
    }
  }

  lemma RequestsAreQueued(h: H.Host, d: D.Device)
    requires H.HostOk(h) && Session.Invariant(h, d) && h.out == [] && d.out == [] && d.queue == []
    ensures h.requests == OpenIds(h.queue)
  {
    forall r | r in h.requests
      ensures r in OpenIds(h.queue)
    {
      RequestIsQueued(h, d, r);
    }
    forall id | id in OpenIds(h.queue)
      ensures id in h.requests
    {
      var m := OpenOf(h.queue, id);
      assert Session.QueuedOk(h, d, m);
    }
  }

  lemma {:induction false} OpenOf(s: seq<Message>, id: nat) returns (m: Message)
    requires id in OpenIds(s)
    ensures m in s && m.command == Open && m.host == id
  {
    if s[0].command == Open && s[0].host == id {
      m := s[0];
    } else {
      m := OpenOf(s[1..], id);
    }
  }

  /** A handshake never gets stuck: when nothing is in flight, a host that is not
      disconnected is in a session. */
  lemma QuietMeansEstablished(start: Joint, steps: seq<Step>, j: Joint)
    requires Reachable(start, steps, j) && WiresEmpty(j)
    ensures j.host.phase == H.Disconnected || Established(j)
  {
    ReachableHolds(start, steps, j);
  }

  // ---------- End-to-end delivery ----------

  ghost predicate LiveStream(j: Joint, id: nat) {
    id in j.host.streams && j.host.streams[id].dev in j.dev.streams
  }

  lemma LiveHistories(j: Joint, id: nat)
    requires Invariant(j) && Session.Invariant(j.host, j.dev) && id in j.host.streams
    ensures LiveStream(j, id)
    ensures var s, t := j.host.streams[id], j.dev.streams[j.host.streams[id].dev];
      && s.frags == Stream(s.wrote) && t.frags == Stream(t.wrote)
      && FeedAll(IDLE, s.raw) == (s.assembly, s.got) && FeedAll(IDLE, t.raw) == (t.assembly, t.got)
      && ArePackets(s.wrote) && ArePackets(t.wrote)
      && s.frags == t.raw + Payloads(j.host.out + j.host.queue, s.dev)
      && t.frags == s.raw + Payloads(j.dev.out + j.dev.queue, s.dev)
  {
    assert Sync.HistoryOk(j.host.streams[id]);
    assert InboxOk(j.dev.streams[j.host.streams[id].dev]);
  }

  /** One direction of a stream, with the fragments `sent` on the wire and `queued`. */
  ghost predicate Delivers(writer: StreamState, reader: StreamState, sent: seq<Bytes>, queued: seq<Bytes>) {
    && Stream(writer.wrote) == reader.raw + sent + queued
    && reader.got <= writer.wrote
    && (sent == [] && queued == [] ==> reader.got == writer.wrote)
  }

  lemma OneDirection(writer: StreamState, reader: StreamState, sent: seq<Bytes>, queued: seq<Bytes>)
    requires writer.frags == reader.raw + (sent + queued)
    requires OutboxOk(writer) && InboxOk(reader) && ArePackets(writer.wrote)
    ensures Delivers(writer, reader, sent, queued)
  {
    Associative(reader.raw, sent, queued);
    PrefixIsIntact(writer.wrote, reader.raw, sent + queued);
  }

  /** Conservation for each live stream and each direction: the fragments received,
      on the wire and queued are those of the packets written; so the packets
      emitted are an in-order, intact prefix of the packets written. */
  lemma EndToEnd(start: Joint, steps: seq<Step>, j: Joint, id: nat)
    requires Reachable(start, steps, j) && Established(j) && id in j.host.streams
    ensures LiveStream(j, id)
    ensures var s, t := j.host.streams[id], j.dev.streams[j.host.streams[id].dev];
      && Delivers(s, t, Payloads(j.host.out, s.dev), Payloads(j.host.queue, s.dev))
      && Delivers(t, s, Payloads(j.dev.out, s.dev), Payloads(j.dev.queue, s.dev))
  {
    ReachableHolds(start, steps, j);
    LiveHistories(j, id);
    var s, t := j.host.streams[id], j.dev.streams[j.host.streams[id].dev];
    PayloadsAppend(j.host.out, j.host.queue, s.dev);
    PayloadsAppend(j.dev.out, j.dev.queue, s.dev);
    OneDirection(s, t, Payloads(j.host.out, s.dev), Payloads(j.host.queue, s.dev));
    OneDirection(t, s, Payloads(j.dev.out, s.dev), Payloads(j.dev.queue, s.dev));
  }

  /** The assertions of receiveMessage hold for every Write that arrives at a
      stream, on either side. */
  lemma ArrivalsFit(start: Joint, steps: seq<Step>, j: Joint)
    requires Reachable(start, steps, j) && Established(j)
    ensures j.host.out != [] && j.host.out[0].command == Write ==>
      var m := j.host.out[0];
      m.dev in j.dev.streams && j.dev.streams[m.dev].host == m.host && FitsPacket(j.dev.streams[m.dev].assembly, m.data)
    ensures j.dev.out != [] && j.dev.out[0].command == Write && j.dev.out[0].host in j.host.streams ==>
      var m := j.dev.out[0];
      j.host.streams[m.host].dev == m.dev && FitsPacket(j.host.streams[m.host].assembly, m.data)
  {
    ReachableHolds(start, steps, j);
    var h, d := j.host, j.dev;
    if h.out != [] && h.out[0].command == Write {
      ArrivalFits(h, d);
    }
    if d.out != [] && d.out[0].command == Write && d.out[0].host in h.streams {
      var m := d.out[0];
      assert m in Session.Down(d) && Session.DownOk(h, d, m);
      LiveHistories(j, m.host);
      var down := Session.Down(d);
      assert down[0] == m;
      assert Payloads(down, m.dev) == [m.data] + Payloads(down[1..], m.dev);
      PrefixIsIntact(d.streams[m.dev].wrote, h.streams[m.host].raw, Payloads(down, m.dev));
    }
  }

  /** Echo: what comes back on an echo stream is always a prefix of what was
      written, and all of it once nothing is in flight or queued for the stream. */
  lemma Echoes(start: Joint, steps: seq<Step>, j: Joint, id: nat)
    requires Reachable(start, steps, j) && Established(j) && id in j.host.streams
    requires j.host.streams[id].dev in j.dev.executors && j.dev.executors[j.host.streams[id].dev] == D.Echo
    ensures j.host.streams[id].got <= j.host.streams[id].wrote
    ensures WiresEmpty(j) && Payloads(j.host.queue, j.host.streams[id].dev) == [] ==>
      j.host.streams[id].got == j.host.streams[id].wrote
  {
    ReachableHolds(start, steps, j);
    EndToEnd(start, steps, j, id);
    if WiresEmpty(j) {
      NobodyWaits(j);
    }
  }
}
