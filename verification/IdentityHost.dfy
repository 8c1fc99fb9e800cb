/** The steps of the host keep the identity invariant. */
module IdentityHost {
  import opened Protocol
  import opened Streams
  import opened Grammar
  import opened Identity
  import H = HostMachine
  import D = DeviceMachine
  import HostSteps
  import Joint

  // ---------- A message is sent ----------

  /** The history after `m` has been sent. */
  lemma SendHistory(h: H.Host, e: H.Host, d: D.Device, m: Message)
    requires HistoryOk(h, d) && MintedOk(h, d) && e.log == h.log + [m] && e.nextId == h.nextId
    requires OpenIds(e.queue) <= OpenIds(h.queue) && OpenIds(e.out) <= OpenIds(h.out) + OpenIds([m])
    requires e.requests <= h.requests && forall id :: id in e.streams ==> id in h.streams
    requires m.host < h.nextId && m.host !in OpenIds(e.queue)
    requires 0 !in OpenIds(h.queue) && 0 !in OpenIds(e.out) && 0 !in h.streams && 0 !in h.requests
    requires match m.command
      case Open => StageOf(h.log, m.host) == Unopened
      case Write => m.host in h.streams
      case Ok => m.host in h.streams
      case Close => m.host !in e.streams && m.host !in e.requests
      case _ => m.host == 0
    ensures HistoryOk(e, d)
  {
    forall id
      ensures StageOf(e.log, id) == if m.host == id then Advance(StageOf(h.log, id), m.command) else StageOf(h.log, id)
    {
      StageAppend(h.log, m, id);
    }
  }

  lemma CloseIsLastTail(s: seq<Message>, gone: nat)
    requires CloseIsLast(s)
    ensures s != [] ==> CloseIsLast(s[1..])
    ensures CloseIsLast(WithoutHost(s, gone))
  {
    if s != [] {
      CloseIsLastTail(s[1..], gone);
      var rest := WithoutHost(s[1..], gone);
      if s[0].host != gone {
        assert ([s[0]] + rest)[1..] == rest;
      } else {
        assert [] + rest == rest;
      }
    }
  }

  lemma CloseIsLastAppend(s: seq<Message>, m: Message)
    requires CloseIsLast(s)
    requires m.command == Write ==> forall x :: x in s && x.command == Close ==> x.host != m.host
    ensures CloseIsLast(s + [m])
  {
    if s != [] {
      assert (s + [m])[1..] == s[1..] + [m];
      assert forall x :: x in s[1..] ==> x in s;
      CloseIsLastAppend(s[1..], m);
    }
  }

  lemma HeadIsKnown(h: H.Host, d: D.Device)
    requires H.HostOk(h) && h.queue != [] && OpensOk(h, d) && MessagesOk(h, d) && MintedOk(h, d)
    ensures H.QueuedOk(h, h.queue[0]) && UpOk(h, d, h.queue[0]) && 1 <= h.queue[0].host < h.nextId
    ensures h.queue[0].host !in OpenIds(h.queue[1..])
    ensures 0 !in OpenIds(h.queue) && 0 !in OpenIds(h.out)
    ensures 0 !in h.streams && 0 !in h.requests
    ensures OpenIds(h.out + h.queue) == OpenIds(h.out) + OpenIds(h.queue)
  {
    OpenIdsAppend(h.out, h.queue);
    DistinctOpensAppend(h.out, h.queue);
    assert h.queue[0] in h.queue;
    assert OpenIds(h.queue[1..]) <= OpenIds(h.queue);
  }

  lemma SentHeadMessages(h: H.Host, d: D.Device)
    requires h.queue != [] && MessagesOk(h, d) && OpensOk(h, d)
    ensures MessagesOk(HostSteps.SentHead(h), d) && OpensOk(HostSteps.SentHead(h), d)
  {
    var e := HostSteps.SentHead(h);
    assert h.queue[0] in h.queue;
    assert e.out + e.queue == h.out + h.queue;
    assert forall x :: x in e.queue ==> x in h.queue;
  }

  lemma SentHeadHistory(h: H.Host, d: D.Device)
    requires H.HostOk(h) && h.queue != [] && (h.queue[0].command == Command.Open || h.queue[0].command == Write)
    requires MessagesOk(h, d) && MintedOk(h, d) && OpensOk(h, d) && HistoryOk(h, d)
    ensures HistoryOk(HostSteps.SentHead(h), d)
  {
    HeadIsKnown(h, d);
    OpenIdsAppend(h.out, [h.queue[0]]);
    SendHistory(h, HostSteps.SentHead(h), d, h.queue[0]);
  }

  lemma SentHeadPayloads(h: H.Host, k: nat)
    requires h.queue != []
    ensures var e := HostSteps.SentHead(h);
      Payloads(e.log, k) + Payloads(e.queue, k) == Payloads(h.log, k) + Payloads(h.queue, k)
  {
    var e, m := HostSteps.SentHead(h), h.queue[0];
    PayloadsAppend(h.log, [m], k);
    assert h.queue == [m] + e.queue;
    PayloadsAppend([m], e.queue, k);
    Associative(Payloads(h.log, k), Payloads([m], k), Payloads(e.queue, k));
  }

  lemma SentHeadFlush(h: H.Host, d: D.Device)
    requires h.queue != [] && UpOk(h, d, h.queue[0]) && FlushOk(h, d) && TablesOk(h, d)
    ensures var e := HostSteps.SentHead(h); FlushOk(e, d) && TablesOk(e, d)
  {
    CloseIsLastTail(h.queue, 0);
    forall id | id in h.streams
      ensures var e, k := HostSteps.SentHead(h), h.streams[id].dev;
        Payloads(e.log, k) + Payloads(e.queue, k) == Payloads(h.log, k) + Payloads(h.queue, k)
    {
      SentHeadPayloads(h, h.streams[id].dev);
    }
  }

  lemma SentCloseMessages(h: H.Host, d: D.Device)
    requires h.queue != [] && MessagesOk(h, d)
    ensures MessagesOk(HostSteps.SentClose(h), d)
  {
    assert h.queue[0] in h.queue;
    assert forall x :: x in HostSteps.SentClose(h).queue ==> x in h.queue;
  }

  lemma SentCloseHistory(h: H.Host, d: D.Device)
    requires H.HostOk(h) && h.queue != [] && h.queue[0].command == Close
    requires MessagesOk(h, d) && MintedOk(h, d) && OpensOk(h, d) && HistoryOk(h, d)
    ensures HistoryOk(HostSteps.SentClose(h), d)
  {
    HeadIsKnown(h, d);
    SentCloseOpens(h, d);
    SendHistory(h, HostSteps.SentClose(h), d, h.queue[0]);
  }

  lemma SentCloseOpens(h: H.Host, d: D.Device)
    requires h.queue != [] && h.queue[0].command == Close && OpensOk(h, d)
    ensures var e := HostSteps.SentClose(h);
      OpensOk(e, d) && OpenIds(e.queue) <= OpenIds(h.queue) && OpenIds(e.out) == OpenIds(h.out)
  {
    var e, m, rest := HostSteps.SentClose(h), h.queue[0], h.queue[1..];
    OpenIdsAppend(h.out, h.queue);
    DistinctOpensAppend(h.out, h.queue);
    OpenIdsAppend(h.out, [m]);
    DistinctOpensAppend(h.out, [m]);
    OpenIdsAppend(e.out, e.queue);
    DistinctOpensAppend(e.out, e.queue);
    OpensWithoutHost(rest, m.host);
  }

  lemma SentCloseFlush(h: H.Host, d: D.Device)
    requires h.queue != [] && h.queue[0].command == Close
    requires FlushOk(h, d) && TablesOk(h, d) && MessagesOk(h, d)
    ensures FlushOk(HostSteps.SentClose(h), d) && TablesOk(HostSteps.SentClose(h), d)
  {
    var f := h.(queue := h.queue[1..], log := h.log + [h.queue[0]]);
    forall x | x in f.queue
      ensures UpOk(f, d, x)
    {
      assert x in h.queue && UpOk(h, d, x);
    }
    assert h.queue[0] in h.queue;
    CloseDequeued(h, d);
    SentCloseShape(h, f);
    CloseFlush(f, HostSteps.SentClose(h), d, h.queue[0].host);
  }

  lemma SentCloseShape(h: H.Host, f: H.Host)
    requires h.queue != [] && f == h.(queue := h.queue[1..], log := h.log + [h.queue[0]])
    ensures var e, gone := HostSteps.SentClose(h), h.queue[0].host;
      && e.streams == f.streams - {gone} && e.requests == f.requests && e.log == f.log
      && e.queue == if gone in f.streams then WithoutHost(f.queue, gone) else f.queue
  {
    assert h.queue[0].host !in h.streams ==> h.streams - {h.queue[0].host} == h.streams;
  }

  lemma CloseDequeued(h: H.Host, d: D.Device)
    requires h.queue != [] && h.queue[0].command == Close && FlushOk(h, d)
    ensures FlushOk(h.(queue := h.queue[1..], log := h.log + [h.queue[0]]), d)
  {
    CloseIsLastTail(h.queue, 0);
    forall id | id in h.streams
      ensures Payloads(h.log + [h.queue[0]], h.streams[id].dev) == Payloads(h.log, h.streams[id].dev)
    {
      PayloadsAppend(h.log, [h.queue[0]], h.streams[id].dev);
    }
  }

  /** A stream is closed, and what is queued on it is dropped. */
  lemma CloseFlush(h: H.Host, e: H.Host, d: D.Device, gone: nat)
    requires FlushOk(h, d) && TablesOk(h, d)
    requires forall m :: m in h.queue ==> UpOk(h, d, m)
    requires e.streams == h.streams - {gone} && e.requests == h.requests
    requires e.queue == if gone in h.streams then WithoutHost(h.queue, gone) else h.queue
    requires e.log == h.log
    ensures FlushOk(e, d) && TablesOk(e, d)
  {
    CloseIsLastTail(h.queue, gone);
    forall id | id in e.streams && gone in h.streams
      ensures Payloads(e.queue, h.streams[id].dev) == Payloads(h.queue, h.streams[id].dev)
    {
      var k := h.streams[id].dev;
      forall m | m in h.queue && m.command == Write && m.dev == k
        ensures m.host != gone
      {
        assert UpOk(h, d, m);
      }
      PayloadsWithoutHost(h.queue, gone, k);
    }
  }

  lemma ProcessQueueKeeps(h: H.Host, d: D.Device)
    requires H.HostOk(h) && h.phase != H.Disconnected && Invariant(h, d)
    ensures Invariant(H.ProcessQueue(h), d)
  {
    if H.MaySend(h) {
      HeadIsKnown(h, d);
      var e := H.ProcessQueue(h);
      if h.queue[0].command == Close {
        assert e == HostSteps.SentClose(h).(fault := e.fault);
        SentCloseMessages(h, d);
        SentCloseOpens(h, d);
        SentCloseHistory(h, d);
        SentCloseFlush(h, d);
      } else {
        assert e == HostSteps.SentHead(h).(fault := e.fault);
        SentHeadMessages(h, d);
        SentHeadHistory(h, d);
        SentHeadFlush(h, d);
      }
    }
  }

  // ---------- A message is queued ----------

  lemma RequestMessages(h: H.Host, d: D.Device, tag: Bytes)
    requires MessagesOk(h, d) && MintedOk(h, d)
    ensures MessagesOk(H.Requesting(h, tag), d) && MintedOk(H.Requesting(h, tag), d)
  {
    var e := H.Requesting(h, tag);
    forall m
      ensures UpOk(h, d, m) ==> UpOk(e, d, m)
      ensures DownOk(h, d, m) ==> DownOk(e, d, m)
    {
    }
  }

  lemma RequestOpens(h: H.Host, d: D.Device, tag: Bytes)
    requires 1 <= h.nextId && MintedOk(h, d) && OpensOk(h, d) && HistoryOk(h, d)
    ensures OpensOk(H.Requesting(h, tag), d) && HistoryOk(H.Requesting(h, tag), d)
  {
    var e := H.Requesting(h, tag);
    var m := Message(Command.Open, h.nextId, 0, tag);
    assert e.out + e.queue == (h.out + h.queue) + [m];
    OpenIdsAppend(h.out + h.queue, [m]);
    DistinctOpensAppend(h.out + h.queue, [m]);
    OpenIdsAppend(h.queue, [m]);
    assert OpenIds([m]) == {h.nextId};
  }

  lemma QueueFlush(h: H.Host, e: H.Host, d: D.Device, m: Message)
    requires FlushOk(h, d) && m.command != Write
    requires e.queue == h.queue + [m] && e.streams == h.streams && e.log == h.log
    requires forall x :: x in h.log && x.command == Write ==> x.host !in e.requests
    ensures FlushOk(e, d)
  {
    CloseIsLastAppend(h.queue, m);
    forall id | id in h.streams
      ensures Payloads(e.queue, h.streams[id].dev) == Payloads(h.queue, h.streams[id].dev)
    {
      PayloadsAppend(h.queue, [m], h.streams[id].dev);
    }
  }

  lemma RequestKeeps(h: H.Host, d: D.Device, tag: Bytes)
    requires H.HostOk(h) && Invariant(h, d)
    ensures Invariant(H.Requesting(h, tag), d)
  {
    RequestMessages(h, d, tag);
    RequestOpens(h, d, tag);
    QueueFlush(h, H.Requesting(h, tag), d, Message(Command.Open, h.nextId, 0, tag));
  }

  /** A message that is not an Open joins the queue. */
  lemma QueueOpens(h: H.Host, e: H.Host, d: D.Device, m: Message)
    requires m.command != Command.Open && OpensOk(h, d)
    requires e.queue == h.queue + [m] && e.out == h.out && e.nextId == h.nextId
    ensures OpensOk(e, d) && OpenIds(e.queue) == OpenIds(h.queue)
  {
    assert e.out + e.queue == (h.out + h.queue) + [m];
    OpenIdsAppend(h.out + h.queue, [m]);
    DistinctOpensAppend(h.out + h.queue, [m]);
    OpenIdsAppend(h.queue, [m]);
    assert OpenIds([m]) == {};
  }

  lemma QueueCloseKeeps(h: H.Host, d: D.Device, m: Message)
    requires Invariant(h, d) && UpOk(h, d, m) && m.command == Close
    ensures Invariant(h.(queue := h.queue + [m]), d)
  {
    var e := h.(queue := h.queue + [m]);
    QueueOpens(h, e, d, m);
    QueueFlush(h, e, d, m);
  }

  lemma QueueWriteFlush(h: H.Host, d: D.Device, id: nat, fragment: Bytes)
    requires FlushOk(h, d) && TablesOk(h, d) && id in h.streams && h.streams[id].host == id
    requires !Joint.CloseRequested(h, id)
    ensures FlushOk(H.Queueing(h, id, fragment), d) && TablesOk(H.Queueing(h, id, fragment), d)
  {
    var e := H.Queueing(h, id, fragment);
    var m := Message(Write, id, h.streams[id].dev, fragment);
    CloseIsLastAppend(h.queue, m);
    forall other | other in e.streams
      ensures e.streams[other].frags == Payloads(e.log, e.streams[other].dev) + Payloads(e.queue, e.streams[other].dev)
    {
      var k := h.streams[other].dev;
      PayloadsAppend(h.queue, [m], k);
      assert Payloads([m], k) == if other == id then [fragment] else [];
    }
  }

  lemma QueueWriteKeeps(h: H.Host, d: D.Device, id: nat, fragment: Bytes)
    requires H.HostOk(h) && Invariant(h, d) && id in h.streams && !Joint.CloseRequested(h, id)
    ensures Invariant(H.Queueing(h, id, fragment), d)
  {
    var e := H.Queueing(h, id, fragment);
    var m := Message(Write, id, h.streams[id].dev, fragment);
    QueueOpens(h, e, d, m);
    QueueWriteFlush(h, d, id, fragment);
    assert UpOk(e, d, m);
  }

  lemma StreamsChange(h: H.Host, e: H.Host, d: D.Device)
    requires Invariant(h, d)
    requires e.queue == h.queue && e.out == h.out && e.log == h.log && e.requests == h.requests && e.nextId == h.nextId
    requires e.streams.Keys == h.streams.Keys
    requires forall id :: id in h.streams ==>
      e.streams[id].dev == h.streams[id].dev && e.streams[id].frags == h.streams[id].frags
    ensures Invariant(e, d)
  {
  }

  lemma NoteKeeps(h: H.Host, d: D.Device, id: nat, packet: Packet)
    requires Invariant(h, d)
    ensures Invariant(H.Note(h, id, packet), d)
  {
    StreamsChange(h, H.Note(h, id, packet), d);
  }

  // ---------- The host forgets or gains streams ----------

  lemma Shrinks(h: H.Host, e: H.Host, d: D.Device)
    requires Invariant(h, d)
    requires e.queue == [] && e.streams == map[] && e.requests == {}
    requires e.out == h.out && e.log == h.log && e.nextId == h.nextId
    ensures Invariant(e, d)
  {
    assert e.out + e.queue == e.out;
    OpenIdsAppend(h.out, h.queue);
    DistinctOpensAppend(h.out, h.queue);
  }

  lemma CloseStreamKeeps(h: H.Host, d: D.Device, id: nat)
    requires H.HostOk(h) && Invariant(h, d)
    ensures Invariant(H.CloseStream(h, id), d)
  {
    if id in h.streams {
      CloseFlush(h, H.CloseStream(h, id), d, id);
      CloseStreamOpens(h, H.CloseStream(h, id), d, id);
    }
  }

  lemma CloseStreamOpens(h: H.Host, e: H.Host, d: D.Device, id: nat)
    requires OpensOk(h, d) && HistoryOk(h, d) && e.out == h.out && e.log == h.log && e.nextId == h.nextId
    requires e.queue == WithoutHost(h.queue, id) && e.streams == h.streams - {id} && e.requests == h.requests
    ensures OpensOk(e, d) && HistoryOk(e, d)
  {
    OpenIdsAppend(h.out, h.queue);
    DistinctOpensAppend(h.out, h.queue);
    OpenIdsAppend(e.out, e.queue);
    DistinctOpensAppend(e.out, e.queue);
    OpensWithoutHost(h.queue, id);
  }

  /** An empty host sends `m`, and no Open. */
  lemma EmptySends(h: H.Host, e: H.Host, d: D.Device, m: Message)
    requires Invariant(h, d) && h.queue == [] && h.requests == {} && h.streams == map[]
    requires e == H.Send(h, m) && m.command != Command.Open && UpOk(h, d, m) && m.command != Write
    ensures MessagesOk(e, d) && MintedOk(e, d) && OpensOk(e, d) && TablesOk(e, d) && FlushOk(e, d)
    ensures OpenIds(e.out) == OpenIds(h.out)
  {
    assert h.out + h.queue == h.out;
    EmptyOpens(h, e, d, m);
  }

  lemma EmptyOpens(h: H.Host, e: H.Host, d: D.Device, m: Message)
    requires OpensOk(h, d) && h.queue == [] && e == H.Send(h, m) && m.command != Command.Open
    ensures OpensOk(e, d) && OpenIds(e.out) == OpenIds(h.out)
  {
    assert e.out + e.queue == h.out + [m] && h.out + h.queue == h.out;
    OpenIdsAppend(h.out, [m]);
    DistinctOpensAppend(h.out, [m]);
    assert OpenIds([m]) == {};
  }

  /** The host sends a Connect, whose id 0 belongs to no stream. */
  lemma SendConnect(h: H.Host, d: D.Device)
    requires 1 <= h.nextId && Invariant(h, d) && h.queue == [] && h.requests == {} && h.streams == map[]
    ensures Invariant(H.Send(h, ConnectMessage()), d)
  {
    var m := ConnectMessage();
    var e := H.Send(h, m);
    EmptySends(h, e, d, m);
    forall id | 1 <= id
      ensures StageOf(e.log, id) == StageOf(h.log, id)
    {
      StageAppend(h.log, m, id);
    }
    assert h.out + h.queue == h.out;
  }

  lemma ResetKeeps(h: H.Host, d: D.Device, reconnect: bool)
    requires 1 <= h.nextId && !h.fault && Invariant(h, d)
    ensures Invariant(H.Reset(h, reconnect), d)
  {
    var c := H.Cleared(h);
    Shrinks(h, c, d);
    if reconnect {
      SendConnect(c, d);
      H.ResetOk(h, true);
      var q := c.(queue := c.queue + [ConnectMessage()]);
      assert q.queue[0] == ConnectMessage() && q.queue[1..] == [];
      assert H.Reset(h, true) == H.Send(c, ConnectMessage()).(phase := H.WaitingForConnection);
    }
  }

  // ---------- A message is received ----------

  /** The Ok that answers the Open of a pending request. */
  lemma FinishHistory(h: H.Host, d: D.Device, m: Message)
    requires H.HostOk(h) && MintedOk(h, d) && HistoryOk(h, d) && TablesOk(h, d)
    requires m.host in h.requests && Pair(d, m)
    ensures HistoryOk(H.FinishCreateStream(h, m.host, m.dev), d) && TablesOk(H.FinishCreateStream(h, m.host, m.dev), d)
  {
  }

  lemma FinishFlush(h: H.Host, d: D.Device, m: Message)
    requires H.HostOk(h) && MessagesOk(h, d) && FlushOk(h, d)
    requires m.host in h.requests && Pair(d, m)
    ensures FlushOk(H.FinishCreateStream(h, m.host, m.dev), d)
  {
    PayloadsEmpty(h.log, m.dev);
    PayloadsEmpty(h.queue, m.dev);
    assert forall x :: x in h.queue ==> UpOk(h, d, x);
  }

  lemma FinishMessages(h: H.Host, d: D.Device, m: Message)
    requires MessagesOk(h, d) && MintedOk(h, d) && OpensOk(h, d)
    ensures var e := H.FinishCreateStream(h, m.host, m.dev); MessagesOk(e, d) && MintedOk(e, d) && OpensOk(e, d)
  {
    var e := H.FinishCreateStream(h, m.host, m.dev);
    forall x
      ensures UpOk(h, d, x) ==> UpOk(e, d, x)
      ensures DownOk(h, d, x) ==> DownOk(e, d, x)
    {
    }
  }

  lemma FinishKeeps(h: H.Host, d: D.Device, m: Message)
    requires H.HostOk(h) && Invariant(h, d) && m.host in h.requests && Pair(d, m)
    ensures Invariant(H.FinishCreateStream(h, m.host, m.dev), d)
  {
    FinishMessages(h, d, m);
    FinishHistory(h, d, m);
    FinishFlush(h, d, m);
  }

  lemma PhaseKeeps(h: H.Host, d: D.Device, phase: H.Phase)
    requires Invariant(h, d)
    ensures Invariant(h.(phase := phase), d)
  {
  }

  /** The host acknowledges a Write. */
  lemma AcknowledgeOpens(h: H.Host, e: H.Host, d: D.Device, m: Message)
    requires OpensOk(h, d) && m.command == Ok
    requires e.out == h.out + [m] && e.queue == h.queue && e.nextId == h.nextId
    ensures OpensOk(e, d) && OpenIds(e.out) == OpenIds(h.out)
    ensures OpenIds(h.out + h.queue) == OpenIds(h.out) + OpenIds(h.queue)
  {
    OpenIdsAppend(h.out, h.queue);
    DistinctOpensAppend(h.out, h.queue);
    OpenIdsAppend(h.out, [m]);
    DistinctOpensAppend(h.out, [m]);
    OpenIdsAppend(e.out, e.queue);
    DistinctOpensAppend(e.out, e.queue);
    assert OpenIds([m]) == {};
  }

  lemma AcknowledgeHistory(h: H.Host, e: H.Host, d: D.Device, m: Message)
    requires H.HostOk(h) && OpensOk(h, d) && MintedOk(h, d) && HistoryOk(h, d) && TablesOk(h, d)
    requires m.command == Ok && m.host in h.streams
    requires e.out == h.out + [m] && e.log == h.log + [m] && e.queue == h.queue && e.nextId == h.nextId
    requires e.requests == h.requests && e.streams.Keys == h.streams.Keys
    ensures HistoryOk(e, d)
  {
    AcknowledgeOpens(h, e, d, m);
    assert !NotMinted(d, m.host) by {
      assert d.minted[h.streams[m.host].dev] == m.host;
    }
    SendHistory(h, e, d, m);
  }

  lemma AcknowledgeFlush(h: H.Host, e: H.Host, d: D.Device, m: Message)
    requires FlushOk(h, d) && TablesOk(h, d) && m.command == Ok
    requires e.log == h.log + [m] && e.queue == h.queue && e.requests == h.requests
    requires e.streams.Keys == h.streams.Keys
    requires forall id :: id in h.streams ==>
      e.streams[id].dev == h.streams[id].dev && e.streams[id].frags == h.streams[id].frags
    ensures FlushOk(e, d) && TablesOk(e, d)
  {
    forall id | id in h.streams
      ensures Payloads(e.log, h.streams[id].dev) == Payloads(h.log, h.streams[id].dev)
    {
      PayloadsAppend(h.log, [m], h.streams[id].dev);
    }
  }

  lemma AcknowledgeKeeps(h: H.Host, e: H.Host, d: D.Device, m: Message)
    requires H.HostOk(h) && Invariant(h, d) && UpOk(h, d, m) && m.command == Ok && m.host in h.streams
    requires e.out == h.out + [m] && e.log == h.log + [m] && e.queue == h.queue
    requires e.requests == h.requests && e.nextId == h.nextId && e.streams.Keys == h.streams.Keys
    requires forall id :: id in h.streams ==>
      e.streams[id].dev == h.streams[id].dev && e.streams[id].frags == h.streams[id].frags
    ensures Invariant(e, d)
  {
    AcknowledgeOpens(h, e, d, m);
    AcknowledgeHistory(h, e, d, m);
    AcknowledgeFlush(h, e, d, m);
    AcknowledgeMessages(h, e, d, m);
  }

  lemma HandleWriteKeeps(h: H.Host, d: D.Device, m: Message)
    requires H.HostOk(h) && h.phase != H.Disconnected && h.phase != H.WaitingForConnection
    requires Invariant(h, d) && DownOk(h, d, m) && m.command == Write
    ensures Invariant(H.HandleWrite(h, m), d)
  {
    if m.host in h.streams {
      AcknowledgeKeeps(h, H.HandleWrite(h, m), d, OkMessage(m.host, m.dev));
    } else {
      var close := CloseMessage(m.host, m.dev);
      QueueCloseKeeps(h, d, close);
      H.QueueingCloseOk(h, close);
      ProcessQueueKeeps(h.(queue := h.queue + [close]), d);
    }
  }

  lemma AcknowledgeMessages(h: H.Host, e: H.Host, d: D.Device, m: Message)
    requires MessagesOk(h, d) && UpOk(h, d, m)
    requires e.out == h.out + [m] && e.queue == h.queue && e.requests == h.requests
    ensures MessagesOk(e, d)
  {
  }

  lemma OkDispatchKeeps(h: H.Host, d: D.Device, m: Message)
    requires H.HostOk(h) && Invariant(h, d) && Pair(d, m) && m.command == Ok
    requires h.phase == H.Connected || h.phase == H.Waiting
    ensures Invariant(H.Dispatch(h, m), d)
  {
    var c := h.(phase := H.Connected);
    PhaseKeeps(h, d, H.Connected);
    if m.host in h.requests {
      FinishKeeps(c, d, m);
    }
    assert H.Dispatch(h, m) == h || H.Dispatch(h, m) == c || H.Dispatch(h, m) == H.FinishCreateStream(c, m.host, m.dev);
  }

  lemma SessionDispatchKeeps(h: H.Host, d: D.Device, m: Message)
    requires H.HostOk(h) && Invariant(h, d) && DownOk(h, d, m)
    requires h.phase == H.Connected || h.phase == H.Waiting
    requires m.command == Write || m.command == Close || m.command == Ok
    ensures Invariant(H.Dispatch(h, m), d)
  {
    H.DispatchInSession(h, m);
    if m.command == Write {
      HandleWriteKeeps(h, d, m);
    } else if m.command == Close {
      CloseStreamKeeps(h, d, m.host);
    } else {
      OkDispatchKeeps(h, d, m);
    }
  }

  lemma DispatchKeeps(h: H.Host, d: D.Device, m: Message)
    requires H.HostOk(h) && Invariant(h, d) && DownOk(h, d, m) && H.Supported(m) && m.command != Invalid
    ensures Invariant(H.Dispatch(h, m), d)
  {
    if (h.phase == H.Connected || h.phase == H.Waiting) && IsStreamMessage(m) {
      SessionDispatchKeeps(h, d, m);
    } else if h.phase == H.WaitingForConnection && m.command == Command.Connect {
      PhaseKeeps(h, d, H.Connected);
    } else {
      ResetKeeps(h, d, true);
      ResetKeeps(h, d, false);
      assert H.Dispatch(h, m) == H.Reset(h, true) || H.Dispatch(h, m) == H.Reset(h, false);
    }
  }

  lemma HandleKeeps(h: H.Host, d: D.Device, m: Message)
    requires H.HostOk(h) && Invariant(h, d) && DownOk(h, d, m) && H.Supported(m)
    ensures Invariant(H.Handle(h, m), d)
  {
    if m.command == Invalid {
      ResetKeeps(h, d, false);
    } else {
      DispatchKeeps(h, d, m);
      H.DispatchOk(h, m);
      if H.Dispatch(h, m).phase != H.Disconnected {
        ProcessQueueKeeps(H.Dispatch(h, m), d);
      }
    }
  }

  // ---------- close() ----------

  /** A host without streams sends a Close for one it has had. */
  lemma SendClose(h: H.Host, d: D.Device, m: Message)
    requires 1 <= h.nextId && Invariant(h, d) && h.queue == [] && h.requests == {} && h.streams == map[]
    requires m.command == Close && Pair(d, m)
    ensures Invariant(H.Send(h, m), d)
  {
    assert h.out + h.queue == h.out;
    EmptySends(h, H.Send(h, m), d, m);
    SendHistory(h, H.Send(h, m), d, m);
  }

  lemma {:induction false} SendCloses(h: H.Host, d: D.Device, closes: seq<Message>)
    requires 1 <= h.nextId && Invariant(h, d) && h.queue == [] && h.requests == {} && h.streams == map[]
    requires forall m :: m in closes ==> m.command == Close && Pair(d, m)
    ensures Invariant(h.(out := h.out + closes, log := h.log + closes), d)
    decreases closes
  {
    if closes == [] {
      assert h.out + [] == h.out && h.log + [] == h.log;
    } else {
      SendClose(h, d, closes[0]);
      SendCloses(H.Send(h, closes[0]), d, closes[1..]);
      assert closes == [closes[0]] + closes[1..];
      Associative(h.out, [closes[0]], closes[1..]);
      Associative(h.log, [closes[0]], closes[1..]);
    }
  }

  lemma {:induction false} ClosesArePairs(h: H.Host, d: D.Device, order: seq<nat>)
    requires TablesOk(h, d) && H.HostOk(h) && forall id :: id in order ==> id in h.streams
    ensures forall m :: m in H.Closes(h.streams, order) ==> m.command == Close && Pair(d, m)
    decreases order
  {
    if order != [] {
      ClosesArePairs(h, d, order[1..]);
    }
  }

  lemma CloseAllKeeps(h: H.Host, d: D.Device, order: seq<nat>)
    requires H.HostOk(h) && H.IsOrder(h, order) && Invariant(h, d)
    ensures Invariant(H.CloseAll(h, order), d)
  {
    if h.phase == H.Connected || h.phase == H.Waiting {
      Shrinks(h, H.Cleared(h), d);
      ClosesArePairs(h, d, order);
      SendCloses(H.Cleared(h), d, H.Closes(h.streams, order));
    } else {
      PhaseKeeps(h, d, H.Disconnected);
    }
  }
}
