/** The delivery of a message to the host keeps the session invariant. */
module HostReceives {
  import opened Protocol
  import opened Streams
  import opened Session
  import H = HostMachine
  import HostSteps

  /** The device after the host has taken the first message from the wire. */
  function TakenByHost(d: Device): Device
    requires d.out != []
  {
    d.(out := d.out[1..])
  }

  lemma TakenDown(d: Device)
    requires d.out != []
    ensures Down(d) == [d.out[0]] + Down(TakenByHost(d))
    ensures Down(TakenByHost(d)) == Down(d)[1..] && Down(d)[0] == d.out[0]
    ensures forall x :: x in Down(d) <==> x == d.out[0] || x in Down(TakenByHost(d))
  {
  }

  // ---------- Ok ----------

  lemma OkMeansWaiting(h: Host, d: Device)
    requires d.out != [] && d.out[0].command == Ok && TokenOk(h, d)
    ensures h.phase == H.Waiting && Count(Down(TakenByHost(d)), {Ok}) == 0 && Count(h.out, TOKENS) == 0
  {
    TakenDown(d);
  }

  /** The host after an Ok, before it processes its queue. */
  function Acknowledged(h: Host, m: Message): Host {
    if m.host in h.requests then H.FinishCreateStream(h.(phase := H.Connected), m.host, m.dev)
    else h.(phase := H.Connected)
  }

  lemma OkOneMessage(h: Host, d: Device, x: Message)
    requires d.out != [] && H.HostOk(h)
    ensures var m := d.out[0]; var e, f := Acknowledged(h, m), TakenByHost(d);
      && (SentOk(h, d, x) && !(x.command == Open && x.host == m.host) ==> SentOk(e, f, x))
      && (QueuedOk(h, d, x) && !(x.command == Open && x.host == m.host) ==> QueuedOk(e, f, x))
      && (DownOk(h, d, x) && !(x.command != Ok && x.host == m.host) ==> DownOk(e, f, x))
  {
  }

  lemma OkMessages(h: Host, d: Device)
    requires d.out != [] && d.out[0].command == Ok
    requires H.HostOk(h) && MessagesOk(h, d) && NothingLost(h, d) && TablesOk(h, d)
    ensures var e, f := Acknowledged(h, d.out[0]), TakenByHost(d); MessagesOk(e, f) && NothingLost(e, f)
  {
    var m := d.out[0];
    var e, f := Acknowledged(h, m), TakenByHost(d);
    TakenDown(d);
    assert DownOk(h, d, m);
    forall x
      ensures SentOk(h, d, x) ==> SentOk(e, f, x)
      ensures QueuedOk(h, d, x) ==> QueuedOk(e, f, x)
      ensures DownOk(h, d, x) ==> DownOk(e, f, x)
    {
      OkOneMessage(h, d, x);
    }
  }

  lemma OkTables(h: Host, d: Device)
    requires d.out != [] && d.out[0].command == Ok
    requires H.HostOk(h) && TablesOk(h, d) && DownOk(h, d, d.out[0])
    requires Count(Down(TakenByHost(d)), {Ok}) == 0
    ensures TablesOk(Acknowledged(h, d.out[0]), TakenByHost(d))
  {
    var m := d.out[0];
    var e, f := Acknowledged(h, m), TakenByHost(d);
    TakenDown(d);
    CountZero(Down(f), {Ok});
    forall k | k in f.streams
      ensures Accounted(e, f, k)
    {
      assert Accounted(h, d, k);
      var host := d.streams[k].host;
      if host in h.requests {
        assert OkMessage(host, k) == m;
        assert Paired(e, f, k);
      }
    }
  }

  /** Nothing has been written yet to a stream that the host gets only now. */
  lemma NewIsUnwritten(h: Host, d: Device)
    requires d.out != [] && d.out[0].command == Ok && d.out[0].host in h.requests
    requires H.HostOk(h) && MessagesOk(h, d) && TablesOk(h, d)
    ensures var k := d.out[0].dev;
      k in d.streams && Pristine(d, k) && Payloads(Up(h), k) == []
  {
    var m := d.out[0];
    TakenDown(d);
    assert DownOk(h, d, m);
    assert Accounted(h, d, m.dev);
    forall x | x in Up(h) && x.command == Write
      ensures x.dev != m.dev
    {
      assert Live(h, x);
    }
    PayloadsEmpty(Up(h), m.dev);
  }

  lemma OkDelivery(h: Host, d: Device)
    requires d.out != [] && d.out[0].command == Ok
    requires H.HostOk(h) && MessagesOk(h, d) && TablesOk(h, d) && Delivery(h, d)
    ensures Delivery(Acknowledged(h, d.out[0]), TakenByHost(d))
  {
    var m := d.out[0];
    if m.host in h.requests {
      NewIsUnwritten(h, d);
    }
    forall k
      ensures Payloads(Down(TakenByHost(d)), k) == Payloads(Down(d), k)
    {
      TakenDown(d);
    }
    SameDelivery(h, Acknowledged(h, m), d);
  }

  /** The host has gained a new stream, at most. */
  lemma SameDelivery(h: Host, e: Host, d: Device)
    requires d.out != [] && Delivery(h, d) && Up(e) == Up(h)
    requires forall k :: Payloads(Down(TakenByHost(d)), k) == Payloads(Down(d), k)
    requires forall id :: id in e.streams ==>
      || (id in h.streams && e.streams[id] == h.streams[id])
      || (var s := e.streams[id];
          && s == NewStream(id, s.dev) && s.dev in d.streams
          && Pristine(d, s.dev) && Payloads(Up(h), s.dev) == [])
    ensures Delivery(e, TakenByHost(d))
  {
  }

  lemma OkCounts(h: Host, d: Device)
    requires d.out != [] && d.out[0].command == Ok
    requires TokenOk(h, d) && CloseFirst(h, d) && WillRelease(h, d) && Window(h, d)
    ensures var e, f := Acknowledged(h, d.out[0]), TakenByHost(d);
      TokenOk(e, f) && CloseFirst(e, f) && WillRelease(e, f) && Window(e, f)
  {
    var m := d.out[0];
    var e, f := Acknowledged(h, m), TakenByHost(d);
    OkMeansWaiting(h, d);
    assert forall x :: x in d.out && x.command == Write ==> x in f.out;
  }

  lemma TakeOkKeeps(h: Host, d: Device)
    requires H.HostOk(h) && Invariant(h, d) && d.out != [] && d.out[0].command == Ok
    ensures H.Dispatch(h, d.out[0]) == Acknowledged(h, d.out[0])
    ensures Invariant(Acknowledged(h, d.out[0]), TakenByHost(d))
  {
    OkMeansWaiting(h, d);
    assert d.out[0] in Down(d);
    OkMessages(h, d);
    OkTables(h, d);
    OkDelivery(h, d);
    OkCounts(h, d);
  }

  // ---------- Write to a stream the host has ----------

  lemma LiveIsPaired(h: Host, d: Device)
    requires d.out != [] && d.out[0].command == Write && d.out[0].host in h.streams
    requires MessagesOk(h, d) && TablesOk(h, d)
    ensures var m := d.out[0]; h.streams[m.host].dev == m.dev && m.dev in d.streams && d.streams[m.dev].host == m.host
  {
    TakenDown(d);
    assert DownOk(h, d, d.out[0]);
  }

  lemma WriteMessagesOk(h: Host, d: Device)
    requires d.out != [] && d.out[0].command == Write && d.out[0].host in h.streams
    requires MessagesOk(h, d) && NothingLost(h, d)
    ensures var e, f := H.HandleWrite(h, d.out[0]), TakenByHost(d); MessagesOk(e, f) && NothingLost(e, f)
  {
    var m := d.out[0];
    var e, f := H.HandleWrite(h, m), TakenByHost(d);
    var ok := OkMessage(m.host, m.dev);
    TakenDown(d);
    assert DownOk(h, d, m);
    assert Up(e) == h.out + [ok] + h.queue;
    AnswerBetween(h.out, ok, h.queue);
    forall x
      ensures SentOk(h, d, x) ==> SentOk(e, f, x)
      ensures QueuedOk(h, d, x) ==> QueuedOk(e, f, x)
      ensures DownOk(h, d, x) ==> DownOk(e, f, x)
    {
    }
  }

  lemma AnswerBetween(s: seq<Message>, ok: Message, t: seq<Message>)
    requires ok.command == Ok
    ensures OpenIds(s + [ok] + t) == OpenIds(s + t)
    ensures DistinctOpens(s + [ok] + t) == DistinctOpens(s + t)
    ensures forall k :: Payloads(s + [ok] + t, k) == Payloads(s + t, k)
  {
    forall k
      ensures Payloads(s + [ok] + t, k) == Payloads(s + t, k)
    {
      PayloadsAppend(s, [ok], k);
      PayloadsAppend(s + [ok], t, k);
      PayloadsAppend(s, t, k);
    }
    OpenIdsAppend(s, [ok]);
    OpenIdsAppend(s + [ok], t);
    OpenIdsAppend(s, t);
    DistinctOpensAppend(s, [ok]);
    DistinctOpensAppend(s + [ok], t);
    DistinctOpensAppend(s, t);
  }

  lemma WriteTables(h: Host, d: Device)
    requires d.out != [] && d.out[0].command == Write && d.out[0].host in h.streams
    requires TablesOk(h, d)
    ensures TablesOk(H.HandleWrite(h, d.out[0]), TakenByHost(d))
  {
    var m := d.out[0];
    var e, f := H.HandleWrite(h, m), TakenByHost(d);
    TakenDown(d);
    assert forall x :: x in h.out ==> x in e.out;
    forall k | k in f.streams
      ensures Accounted(e, f, k)
    {
      assert Accounted(h, d, k);
    }
  }

  lemma ReceivedHistory(s: StreamState, payload: Bytes)
    ensures var r := Receive(s, payload).0;
      r.raw == s.raw + [payload] && r.frags == s.frags && r.dev == s.dev && r.host == s.host
  {
  }

  /** The two equations of `Delivery` for one stream, after the host has received. */
  lemma DeliveredOne(h: Host, e: Host, d: Device, id: nat)
    requires d.out != [] && d.out[0].command == Write
    requires Delivery(h, d) && id in h.streams && h.streams[id].dev in d.streams && id in e.streams
    requires Payloads(Up(e), h.streams[id].dev) == Payloads(Up(h), h.streams[id].dev)
    requires e.streams[id].dev == h.streams[id].dev && e.streams[id].frags == h.streams[id].frags
    requires e.streams[id].raw
          == h.streams[id].raw + (if d.out[0].dev == h.streams[id].dev then [d.out[0].data] else [])
    ensures var s, t := e.streams[id], d.streams[h.streams[id].dev];
      s.frags == t.raw + Payloads(Up(e), s.dev) && t.frags == s.raw + Payloads(Down(TakenByHost(d)), s.dev)
  {
    TakenDown(d);
  }

  lemma WriteDelivery(h: Host, d: Device)
    requires d.out != [] && d.out[0].command == Write && d.out[0].host in h.streams
    requires h.streams[d.out[0].host].dev == d.out[0].dev
    requires TablesOk(h, d) && Delivery(h, d)
    ensures Delivery(H.HandleWrite(h, d.out[0]), TakenByHost(d))
  {
    var m := d.out[0];
    var e := H.HandleWrite(h, m);
    ReceivedHistory(h.streams[m.host], m.data);
    AnswerBetween(h.out, OkMessage(m.host, m.dev), h.queue);
    assert Up(e) == h.out + [OkMessage(m.host, m.dev)] + h.queue;
    forall id | id in e.streams && e.streams[id].dev in d.streams
      ensures
        var s, t := e.streams[id], d.streams[e.streams[id].dev];
        s.frags == t.raw + Payloads(Up(e), s.dev) && t.frags == s.raw + Payloads(Down(TakenByHost(d)), s.dev)
    {
      assert id != m.host ==> e.streams[id] == h.streams[id] && e.streams[id].raw == e.streams[id].raw + [];
      DeliveredOne(h, e, d, id);
    }
  }

  lemma WriteCounts(h: Host, d: Device)
    requires d.out != [] && d.out[0].command == Write && d.out[0].host in h.streams
    requires TokenOk(h, d) && CloseFirst(h, d) && WillRelease(h, d) && Window(h, d)
    ensures var e, f := H.HandleWrite(h, d.out[0]), TakenByHost(d);
      TokenOk(e, f) && CloseFirst(e, f) && WillRelease(e, f) && Window(e, f)
  {
    var m := d.out[0];
    var ok := [OkMessage(m.host, m.dev)];
    TakenDown(d);
    CountAppend(h.out, ok, TOKENS);
    CountAppend(h.out, ok, {Ok});
    CountAppend(h.out, ok, {Ok, Close});
  }

  lemma TakeWriteKeeps(h: Host, d: Device)
    requires Invariant(h, d) && d.out != [] && d.out[0].command == Write && d.out[0].host in h.streams
    ensures Invariant(H.HandleWrite(h, d.out[0]), TakenByHost(d))
  {
    LiveIsPaired(h, d);
    WriteMessagesOk(h, d);
    WriteTables(h, d);
    WriteDelivery(h, d);
    WriteCounts(h, d);
  }

  // ---------- Write to a stream the host has closed ----------

  lemma DropWriteDelivery(h: Host, d: Device)
    requires d.out != [] && d.out[0].command == Write && d.out[0].host !in h.streams
    requires MessagesOk(h, d) && TablesOk(h, d) && Delivery(h, d)
    ensures Delivery(h, TakenByHost(d)) && MessagesOk(h, TakenByHost(d))
  {
    var m, f := d.out[0], TakenByHost(d);
    TakenDown(d);
    assert DownOk(h, d, m);
    forall id | id in h.streams && h.streams[id].dev in f.streams
      ensures Payloads(Down(d), h.streams[id].dev) == Payloads(Down(f), h.streams[id].dev)
    {
      assert h.streams[id].dev != m.dev;
    }
    forall x
      ensures SentOk(h, d, x) ==> SentOk(h, f, x)
      ensures QueuedOk(h, d, x) ==> QueuedOk(h, f, x)
      ensures DownOk(h, d, x) ==> DownOk(h, f, x)
    {
    }
  }

  lemma DropWriteTables(h: Host, d: Device)
    requires d.out != [] && d.out[0].command == Write && d.out[0].host !in h.streams
    requires TablesOk(h, d) && TokenOk(h, d) && CloseFirst(h, d) && WillRelease(h, d) && Window(h, d)
    ensures var f := TakenByHost(d);
      TablesOk(h, f) && TokenOk(h, f) && CloseFirst(h, f) && WillRelease(h, f) && Window(h, f)
  {
    var m, f := d.out[0], TakenByHost(d);
    TakenDown(d);
    forall k | k in f.streams
      ensures Accounted(h, f, k)
    {
      assert Accounted(h, d, k);
    }
    if WillAcknowledge(h, d) {
      var x :| x in d.out && x.command == Write && x.host in h.streams;
      assert x in f.out;
    }
  }

  lemma DropWriteKeeps(h: Host, d: Device)
    requires H.HostOk(h) && Invariant(h, d) && d.out != [] && d.out[0].command == Write && d.out[0].host !in h.streams
    ensures H.HandleWrite(h, d.out[0]) == H.Enqueue(h, CloseMessage(d.out[0].host, d.out[0].dev))
    ensures Invariant(H.HandleWrite(h, d.out[0]), TakenByHost(d))
  {
    var m, f := d.out[0], TakenByHost(d);
    var close := CloseMessage(m.host, m.dev);
    DropWriteDelivery(h, d);
    DropWriteTables(h, d);
    assert m in Down(d) && DownOk(h, d, m);
    HostSteps.QueueCloseKeeps(h, f, close);
    H.QueueingCloseOk(h, close);
    HostSteps.ProcessQueueKeeps(h.(queue := h.queue + [close]), f);
  }

  // ---------- Any message ----------

  /** In a session the device sends only Ok and Write. */
  lemma OnlyOkAndWrite(h: Host, d: Device)
    requires Invariant(h, d) && d.out != []
    ensures d.out[0].command == Ok || d.out[0].command == Write
  {
    assert d.out[0] in Down(d) && DownOk(h, d, d.out[0]);
  }

  lemma DispatchWriteKeeps(h: Host, d: Device)
    requires H.HostOk(h) && Invariant(h, d) && d.out != [] && d.out[0].command == Write
    ensures Invariant(H.Dispatch(h, d.out[0]), TakenByHost(d))
  {
    H.DispatchInSession(h, d.out[0]);
    if d.out[0].host in h.streams {
      TakeWriteKeeps(h, d);
    } else {
      DropWriteKeeps(h, d);
    }
  }

  lemma DispatchKeeps(h: Host, d: Device)
    requires H.HostOk(h) && Invariant(h, d) && d.out != []
    ensures Invariant(H.Dispatch(h, d.out[0]), TakenByHost(d))
  {
    OnlyOkAndWrite(h, d);
    if d.out[0].command == Ok {
      TakeOkKeeps(h, d);
    } else {
      DispatchWriteKeeps(h, d);
    }
  }

  lemma HandleKeeps(h: Host, d: Device)
    requires H.HostOk(h) && Invariant(h, d) && d.out != []
    ensures Invariant(H.Handle(h, d.out[0]), TakenByHost(d))
  {
    var m := d.out[0];
    OnlyOkAndWrite(h, d);
    DispatchKeeps(h, d);
    H.DispatchOk(h, m);
    HostSteps.ProcessQueueKeeps(H.Dispatch(h, m), TakenByHost(d));
  }
}
