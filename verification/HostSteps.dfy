/** Steps of the host that only move messages from its queue to the wire or
    add messages to its queue keep the session invariant. */
module HostSteps {
  import opened Protocol
  import opened Streams
  import opened Session
  import H = HostMachine

  // ---------- An Open or a Write leaves the queue ----------

  function SentHead(h: Host): Host
    requires h.queue != []
  {
    H.Send(h, h.queue[0]).(queue := h.queue[1..], phase := H.Waiting)
  }

  lemma SendTables(h: Host, d: Device)
    requires h.queue != [] && MessagesOk(h, d) && TablesOk(h, d) && Delivery(h, d) && NothingLost(h, d)
    requires h.queue[0].command in TOKENS
    ensures var e := SentHead(h); MessagesOk(e, d) && TablesOk(e, d) && Delivery(e, d) && NothingLost(e, d)
  {
    var e := SentHead(h);
    assert QueuedOk(h, d, h.queue[0]);
    assert Up(e) == Up(h);
    assert forall x :: x in e.queue ==> x in h.queue;
    SendMessages(h, d);
  }

  lemma SendMessages(h: Host, d: Device)
    requires h.queue != [] && MessagesOk(h, d) && h.queue[0].command in TOKENS
    ensures MessagesOk(SentHead(h), d)
  {
    assert QueuedOk(h, d, h.queue[0]);
    assert Up(SentHead(h)) == Up(h);
    assert forall x :: x in SentHead(h).queue ==> x in h.queue;
  }

  lemma SendCounts(h: Host, d: Device)
    requires h.queue != [] && h.queue[0].command in TOKENS && h.phase == H.Connected
    requires TokenOk(h, d) && CloseFirst(h, d) && WillRelease(h, d) && Window(h, d)
    ensures var e := SentHead(h); TokenOk(e, d) && CloseFirst(e, d) && WillRelease(e, d) && Window(e, d)
  {
    var m := [h.queue[0]];
    CountAppend(h.out, m, TOKENS);
    CountAppend(h.out, m, {Ok});
    CountAppend(h.out, m, {Ok, Close});
    CountZero(h.out, TOKENS);
  }

  // ---------- A Close leaves the queue and closes its stream ----------

  function SentClose(h: Host): Host
    requires h.queue != []
  {
    H.CloseStream(H.Send(h, h.queue[0]).(queue := h.queue[1..]), h.queue[0].host)
  }

  /** What a message is to the host does not change when it forgets stream `gone`. */
  lemma MessageAfterClose(h: Host, e: Host, d: Device, gone: nat, m: Message)
    requires e.streams == h.streams - {gone} && e.requests == h.requests && e.nextId == h.nextId
    ensures SentOk(h, d, m) && !(m.command == Write && m.host == gone) ==> SentOk(e, d, m)
    ensures QueuedOk(h, d, m) && m.host != gone ==> QueuedOk(e, d, m)
    ensures QueuedOk(h, d, m) && gone !in h.streams ==> QueuedOk(e, d, m)
    ensures DownOk(h, d, m) ==> DownOk(e, d, m)
  {
  }

  lemma SendCloseMessages(h: Host, d: Device)
    requires h.queue != [] && MessagesOk(h, d) && H.HostOk(h)
    requires h.queue[0].command == Close && Count(h.out, TOKENS) == 0
    ensures MessagesOk(SentClose(h), d)
  {
    var e, gone := SentClose(h), h.queue[0].host;
    assert QueuedOk(h, d, h.queue[0]);
    CountZero(h.out, TOKENS);
    assert e.streams == h.streams - {gone};
    forall m {
      MessageAfterClose(h, e, d, gone, m);
    }
    forall m | m in e.queue
      ensures QueuedOk(e, d, m)
    {
      assert m in h.queue;
    }
    CloseKeepsOpens(h);
  }

  lemma CloseKeepsOpens(h: Host)
    requires h.queue != [] && h.queue[0].command == Close && DistinctOpens(Up(h))
    ensures DistinctOpens(Up(SentClose(h)))
    ensures h.queue[0].host in h.streams ==> OpenIds(Up(SentClose(h))) >= OpenIds(Up(h)) - {h.queue[0].host}
    ensures h.queue[0].host !in h.streams ==> OpenIds(Up(SentClose(h))) == OpenIds(Up(h))
  {
    var e, rest := SentClose(h), h.queue[1..];
    DistinctOpensAppend(h.out, h.queue);
    OpenIdsAppend(h.out, h.queue);
    DistinctOpensAppend(h.out, [h.queue[0]]);
    OpenIdsAppend(h.out, [h.queue[0]]);
    DistinctOpensAppend(e.out, e.queue);
    OpenIdsAppend(e.out, e.queue);
    OpensWithoutHost(rest, h.queue[0].host);
  }

  lemma SendCloseTables(h: Host, d: Device)
    requires h.queue != [] && h.queue[0].command == Close && H.HostOk(h)
    requires QueuedOk(h, d, h.queue[0])
    requires TablesOk(h, d)
    ensures TablesOk(SentClose(h), d)
  {
    var e := SentClose(h);
    var m := h.queue[0];
    assert forall x :: x in h.out ==> x in e.out;
    assert m in e.out;
    forall k | k in d.streams
      ensures Accounted(e, d, k)
    {
      assert Accounted(h, d, k);
    }
  }

  lemma SendCloseCounts(h: Host, d: Device)
    requires h.queue != [] && h.queue[0].command == Close && h.phase == H.Connected
    requires TokenOk(h, d) && Window(h, d)
    ensures var e := SentClose(h); TokenOk(e, d) && CloseFirst(e, d) && WillRelease(e, d) && Window(e, d)
  {
    var m := [h.queue[0]];
    CountAppend(h.out, m, TOKENS);
    CountAppend(h.out, m, {Ok});
    CountAppend(h.out, m, {Ok, Close});
    CountZero(h.out, TOKENS);
  }

  /** Nothing of another stream is dropped with the stream that is closed. */
  lemma DropsOnlyItsOwn(h: Host, d: Device, gone: nat, id: nat)
    requires MessagesOk(h, d) && TablesOk(h, d) && h.queue != [] && id in h.streams && id != gone
    ensures Payloads(WithoutHost(h.queue[1..], gone), h.streams[id].dev) == Payloads(h.queue[1..], h.streams[id].dev)
  {
    var rest, k := h.queue[1..], h.streams[id].dev;
    forall m | m in rest && m.command == Write && m.dev == k
      ensures m.host != gone
    {
      assert m in h.queue && QueuedOk(h, d, m);
    }
    PayloadsWithoutHost(rest, gone, k);
  }

  /** A Close on the wire, and what is dropped with its stream, are no payloads of
      another stream. */
  lemma SendClosePayloads(h: Host, d: Device, id: nat)
    requires h.queue != [] && h.queue[0].command == Close && MessagesOk(h, d) && TablesOk(h, d)
    requires id in SentClose(h).streams
    ensures id in h.streams
    ensures Payloads(Up(SentClose(h)), h.streams[id].dev) == Payloads(Up(h), h.streams[id].dev)
  {
    var e, gone, k := SentClose(h), h.queue[0].host, h.streams[id].dev;
    if gone in h.streams {
      DropsOnlyItsOwn(h, d, gone, id);
    }
    assert Payloads(e.queue, k) == Payloads(h.queue[1..], k);
    CloseOnWire(h.out, h.queue, e.queue, k);
  }

  lemma CloseOnWire(out: seq<Message>, queue: seq<Message>, rest: seq<Message>, k: nat)
    requires queue != [] && queue[0].command == Close && Payloads(rest, k) == Payloads(queue[1..], k)
    ensures Payloads((out + [queue[0]]) + rest, k) == Payloads(out + queue, k)
  {
    PayloadsAppend(out, queue, k);
    PayloadsAppend(out + [queue[0]], rest, k);
    PayloadsAppend(out, [queue[0]], k);
  }

  lemma SendCloseDelivery(h: Host, d: Device)
    requires h.queue != [] && h.queue[0].command == Close
    requires MessagesOk(h, d) && TablesOk(h, d) && Delivery(h, d)
    ensures Delivery(SentClose(h), d)
  {
    var e := SentClose(h);
    assert forall id :: id in e.streams ==> id in h.streams && e.streams[id] == h.streams[id];
    forall id | id in e.streams
      ensures Payloads(Up(e), e.streams[id].dev) == Payloads(Up(h), h.streams[id].dev)
    {
      SendClosePayloads(h, d, id);
    }
  }

  lemma SendCloseNothingLost(h: Host, d: Device)
    requires h.queue != [] && h.queue[0].command == Close && QueuedOk(h, d, h.queue[0])
    requires MessagesOk(h, d) && H.HostOk(h) && NothingLost(h, d)
    ensures NothingLost(SentClose(h), d)
  {
    CloseKeepsOpens(h);
  }

  lemma ProcessQueueKeeps(h: Host, d: Device)
    requires H.HostOk(h) && Invariant(h, d)
    ensures Invariant(H.ProcessQueue(h), d)
  {
    if H.MaySend(h) {
      assert QueuedOk(h, d, h.queue[0]);
      if h.queue[0].command == Close {
        CountZero(h.out, TOKENS);
        assert H.ProcessQueue(h) == SentClose(h).(fault := H.ProcessQueue(h).fault);
        SendCloseMessages(h, d);
        SendCloseTables(h, d);
        SendCloseCounts(h, d);
        SendCloseDelivery(h, d);
        SendCloseNothingLost(h, d);
      } else {
        assert H.ProcessQueue(h) == SentHead(h).(fault := H.ProcessQueue(h).fault);
        SendTables(h, d);
        SendCounts(h, d);
      }
    }
  }

  // ---------- A message is added to the queue ----------

  lemma RequestMessages(h: Host, d: Device, tag: Bytes)
    requires H.HostOk(h) && MessagesOk(h, d) && TablesOk(h, d)
    ensures MessagesOk(H.Requesting(h, tag), d)
  {
    var e := H.Requesting(h, tag);
    var m := Message(Open, h.nextId, 0, tag);
    assert Up(e) == Up(h) + [m];
    DistinctOpensAppend(Up(h), [m]);
    OpensBelow(Up(h), h.nextId);
    assert h.nextId !in OpenIds(Up(h)) && OpenIds([m]) == {h.nextId};
    forall x
      ensures SentOk(h, d, x) ==> SentOk(e, d, x)
      ensures QueuedOk(h, d, x) ==> QueuedOk(e, d, x)
      ensures DownOk(h, d, x) ==> DownOk(e, d, x)
    {
    }
  }

  lemma OpensBelow(s: seq<Message>, bound: nat)
    requires forall m :: m in s && m.command == Open ==> m.host < bound
    ensures forall id :: id in OpenIds(s) ==> id < bound
  {
    if s != [] {
      assert s[0] in s;
      OpensBelow(s[1..], bound);
    }
  }

  lemma RequestTables(h: Host, d: Device, tag: Bytes)
    requires H.HostOk(h) && TablesOk(h, d) && Delivery(h, d) && NothingLost(h, d)
    ensures var e := H.Requesting(h, tag); TablesOk(e, d) && Delivery(e, d) && NothingLost(e, d)
  {
    var e := H.Requesting(h, tag);
    var m := Message(Open, h.nextId, 0, tag);
    assert Up(e) == Up(h) + [m];
    OpenIdsAppend(Up(h), [m]);
    forall id | id in e.streams && e.streams[id].dev in d.streams
      ensures Payloads(Up(e), e.streams[id].dev) == Payloads(Up(h), h.streams[id].dev)
    {
      PayloadsAppend(Up(h), [m], h.streams[id].dev);
    }
  }

  lemma RequestKeeps(h: Host, d: Device, tag: Bytes)
    requires H.HostOk(h) && Invariant(h, d)
    ensures Invariant(H.Requesting(h, tag), d)
  {
    RequestMessages(h, d, tag);
    RequestTables(h, d, tag);
  }

  lemma CreateStreamKeeps(h: Host, d: Device, tag: Bytes)
    requires H.HostOk(h) && Invariant(h, d)
    ensures Invariant(H.CreateStream(h, tag), d)
  {
    var q := H.Requesting(h, tag);
    assert H.CreateStream(h, tag) == H.ProcessQueue(q);
    RequestKeeps(h, d, tag);
    H.RequestingOk(h, tag);
    ProcessQueueKeeps(q, d);
  }

  /** A message that is not an Open is added to the queue. */
  lemma QueueMessages(h: Host, e: Host, d: Device, m: Message)
    requires MessagesOk(h, d) && NothingLost(h, d) && QueuedOk(h, d, m) && m.command != Open
    requires e.queue == h.queue + [m] && e.out == h.out && e.requests == h.requests && e.nextId == h.nextId
    requires e.streams.Keys == h.streams.Keys && forall id :: id in h.streams ==> e.streams[id].dev == h.streams[id].dev
    ensures MessagesOk(e, d) && NothingLost(e, d)
  {
    assert Up(e) == Up(h) + [m];
    DistinctOpensAppend(Up(h), [m]);
    OpenIdsAppend(Up(h), [m]);
    assert OpenIds([m]) == {};
    forall x
      ensures SentOk(h, d, x) ==> SentOk(e, d, x)
      ensures QueuedOk(h, d, x) ==> QueuedOk(e, d, x)
      ensures DownOk(h, d, x) ==> DownOk(e, d, x)
    {
    }
  }

  lemma QueueCloseDelivery(h: Host, d: Device, m: Message)
    requires Delivery(h, d) && m.command == Close
    ensures Delivery(h.(queue := h.queue + [m]), d)
  {
    var e := h.(queue := h.queue + [m]);
    assert Up(e) == Up(h) + [m];
    forall id | id in e.streams && e.streams[id].dev in d.streams
      ensures Payloads(Up(e), e.streams[id].dev) == Payloads(Up(h), h.streams[id].dev)
    {
      PayloadsAppend(Up(h), [m], h.streams[id].dev);
    }
  }

  lemma QueueCloseKeeps(h: Host, d: Device, m: Message)
    requires H.HostOk(h) && Invariant(h, d) && QueuedOk(h, d, m) && m.command == Close
    ensures Invariant(h.(queue := h.queue + [m]), d)
  {
    QueueMessages(h, h.(queue := h.queue + [m]), d, m);
    QueueCloseDelivery(h, d, m);
  }

  lemma RequestCloseKeeps(h: Host, d: Device, id: nat)
    requires H.HostOk(h) && Invariant(h, d) && id in h.streams
    ensures Invariant(H.RequestClose(h, id), d)
  {
    var m := CloseMessage(h.streams[id].host, h.streams[id].dev);
    QueueCloseKeeps(h, d, m);
    H.QueueingCloseOk(h, m);
    ProcessQueueKeeps(h.(queue := h.queue + [m]), d);
  }

  /** Only the histories of the streams differ. */
  predicate SameTables(h: Host, e: Host) {
    && e == h.(queue := e.queue, streams := e.streams)
    && e.streams.Keys == h.streams.Keys
    && forall id :: id in h.streams ==>
      e.streams[id].dev == h.streams[id].dev && e.streams[id].host == h.streams[id].host
  }

  lemma SameTablesKeep(h: Host, e: Host, d: Device)
    requires SameTables(h, e)
    ensures TablesOk(h, d) ==> TablesOk(e, d)
    ensures WillRelease(h, d) ==> WillRelease(e, d)
  {
  }

  lemma QueueWriteKeeps(h: Host, d: Device, id: nat, fragment: Bytes)
    requires H.HostOk(h) && Invariant(h, d) && id in h.streams
    ensures Invariant(H.Queueing(h, id, fragment), d)
  {
    var e := H.Queueing(h, id, fragment);
    SameTablesKeep(h, e, d);
    QueueMessages(h, e, d, Message(Write, h.streams[id].host, h.streams[id].dev, fragment));
    QueueWriteDelivery(h, d, id, fragment);
  }

  lemma QueueWriteDelivery(h: Host, d: Device, id: nat, fragment: Bytes)
    requires Delivery(h, d) && TablesOk(h, d) && H.HostOk(h) && id in h.streams
    ensures Delivery(H.Queueing(h, id, fragment), d)
  {
    var e := H.Queueing(h, id, fragment);
    var m := Message(Write, id, h.streams[id].dev, fragment);
    assert Up(e) == Up(h) + [m];
    forall other | other in e.streams && e.streams[other].dev in d.streams
      ensures
        var s, t := e.streams[other], d.streams[e.streams[other].dev];
        s.frags == t.raw + Payloads(Up(e), s.dev) && t.frags == s.raw + Payloads(Down(d), s.dev)
    {
      PayloadsAppend(Up(h), [m], h.streams[other].dev);
      assert Payloads([m], h.streams[other].dev) == if other == id then [fragment] else [];
    }
  }

  lemma {:induction false} EnqueueFragmentsKeeps(h: Host, d: Device, id: nat, fragments: seq<Bytes>)
    requires H.HostOk(h) && Invariant(h, d)
    ensures Invariant(H.EnqueueFragments(h, id, fragments), d)
    decreases fragments
  {
    if fragments != [] && id in h.streams {
      var q := H.Queueing(h, id, fragments[0]);
      QueueWriteKeeps(h, d, id, fragments[0]);
      H.QueueingOk(h, id, fragments[0]);
      ProcessQueueKeeps(q, d);
      H.ProcessQueueOk(q);
      EnqueueFragmentsKeeps(H.ProcessQueue(q), d, id, fragments[1..]);
    }
  }

  lemma NoteMessages(h: Host, d: Device, id: nat, packet: Packet)
    requires MessagesOk(h, d) && NothingLost(h, d) && Delivery(h, d)
    ensures var e := H.Note(h, id, packet); MessagesOk(e, d) && NothingLost(e, d) && Delivery(e, d)
  {
    var e := H.Note(h, id, packet);
    forall x
      ensures SentOk(h, d, x) ==> SentOk(e, d, x)
      ensures QueuedOk(h, d, x) ==> QueuedOk(e, d, x)
      ensures DownOk(h, d, x) ==> DownOk(e, d, x)
    {
    }
  }

  lemma NoteKeeps(h: Host, e: Host, d: Device, id: nat, packet: Packet)
    requires Invariant(h, d) && e == H.Note(h, id, packet)
    ensures Invariant(e, d)
  {
    SameTablesKeep(h, e, d);
    NoteMessages(h, d, id, packet);
  }

  lemma WritePacketKeeps(h: Host, d: Device, id: nat, packet: Packet)
    requires H.HostOk(h) && Invariant(h, d)
    ensures Invariant(H.WritePacket(h, id, packet), d)
  {
    var e := H.EnqueueFragments(h, id, Fragments(Wrap(packet)));
    EnqueueFragmentsKeeps(h, d, id, Fragments(Wrap(packet)));
    NoteKeeps(e, H.WritePacket(h, id, packet), d, id, packet);
  }
}
