/** The delivery of a message to the device keeps the session invariant. */
module DeviceReceives {
  import opened Protocol
  import opened Streams
  import opened Session
  import H = HostMachine
  import D = DeviceMachine

  /** The host after the device has taken the first message from the wire. */
  function TakenByDevice(h: Host): Host
    requires h.out != []
  {
    h.(out := h.out[1..])
  }

  lemma TakenUp(h: Host)
    requires h.out != []
    ensures Up(h) == [h.out[0]] + Up(TakenByDevice(h)) && Up(TakenByDevice(h)) == Up(h)[1..] && Up(h)[0] == h.out[0]
    ensures forall x :: x in h.out <==> x == h.out[0] || x in TakenByDevice(h).out
  {
  }

  // ---------- The device drains its queue ----------

  /** One Ok or Write leaves the device's queue. */
  function SentHead(d: Device): Device
    requires d.queue != []
  {
    D.SendHead(d).(phase := if d.queue[0].command == Write then D.Waiting else d.phase)
  }

  lemma SentHeadContents(h: Host, d: Device)
    requires d.queue != []
    requires MessagesOk(h, d) && TablesOk(h, d) && Delivery(h, d) && NothingLost(h, d)
    ensures var e := SentHead(d); MessagesOk(h, e) && TablesOk(h, e) && Delivery(h, e) && NothingLost(h, e)
  {
    SameContents(h, d, SentHead(d));
  }

  /** Moving messages from the queue to the wire changes none of this. */
  lemma SameContents(h: Host, d: Device, e: Device)
    requires Down(e) == Down(d) && e.streams == d.streams && e.nextId == d.nextId
    requires forall x :: x in e.queue ==> x in d.queue
    requires MessagesOk(h, d) && TablesOk(h, d) && Delivery(h, d) && NothingLost(h, d)
    ensures MessagesOk(h, e) && TablesOk(h, e) && Delivery(h, e) && NothingLost(h, e)
  {
    SameMessages(h, d, e);
    assert forall k :: k in e.streams ==> (Accounted(h, e, k) <==> Accounted(h, d, k));
  }

  lemma SameMessages(h: Host, d: Device, e: Device)
    requires Down(e) == Down(d) && e.streams == d.streams && e.nextId == d.nextId
    requires forall x :: x in e.queue ==> x in d.queue
    requires MessagesOk(h, d)
    ensures MessagesOk(h, e)
  {
    forall x
      ensures SentOk(h, d, x) ==> SentOk(h, e, x)
      ensures QueuedOk(h, d, x) ==> QueuedOk(h, e, x)
      ensures DownOk(h, d, x) ==> DownOk(h, e, x)
    {
    }
  }

  /** The Write that makes the device wait is one that the host will
      acknowledge, unless a Close that releases the device is on its way. */
  lemma WriteIsAwaited(h: Host, d: Device)
    requires d.queue != [] && d.queue[0].command == Write && MessagesOk(h, d) && TablesOk(h, d)
    ensures d.queue[0].host in h.streams || Count(h.out, {Ok, Close}) > 0
  {
    var m := d.queue[0];
    assert m in d.queue && m in Down(d) && DownOk(h, d, m);
    assert Accounted(h, d, m.dev);
    CountZero(h.out, {Ok, Close});
  }

  lemma SentHeadCounts(h: Host, d: Device)
    requires d.queue != [] && d.phase == D.Connected && (d.queue[0].command == Ok || d.queue[0].command == Write)
    requires MessagesOk(h, d) && TablesOk(h, d)
    requires TokenOk(h, d) && CloseFirst(h, d) && WillRelease(h, d) && Window(h, d)
    ensures var e := SentHead(d); TokenOk(h, e) && CloseFirst(h, e) && WillRelease(h, e) && Window(h, e)
  {
    var e, m := SentHead(d), d.queue[0];
    assert Down(e) == Down(d);
    CountAppend(d.out, [m], {Write});
    if m.command == Write {
      WriteIsAwaited(h, d);
      assert m in e.out;
    }
  }

  lemma {:induction false} DrainKeeps(h: Host, d: Device)
    requires Invariant(h, d)
    ensures Invariant(h, D.Drain(d))
    decreases |d.queue|
  {
    if d.queue != [] && d.phase != D.Waiting {
      var m, e := d.queue[0], SentHead(d);
      assert m in Down(d) && DownOk(h, d, m);
      SentHeadContents(h, d);
      SentHeadCounts(h, d);
      if m.command == Ok {
        assert D.Drain(d) == D.Drain(e);
        DrainKeeps(h, e);
      } else {
        assert D.Drain(d) == e;
      }
    }
  }

  // ---------- Open ----------

  /** What the other invariants see of the device after the Open `m`. */
  predicate IsOpened(d: Device, e: Device, m: Message) {
    && e.streams == d.streams[d.nextId := NewStream(m.host, d.nextId)]
    && e.queue == d.queue + [OkMessage(m.host, d.nextId)] && e.out == d.out && e.nextId == d.nextId + 1
  }

  lemma OpenDown(d: Device, e: Device, m: Message)
    requires IsOpened(d, e, m)
    ensures Down(e) == Down(d) + [OkMessage(m.host, d.nextId)]
    ensures forall k :: Payloads(Down(e), k) == Payloads(Down(d), k)
  {
    forall k
      ensures Payloads(Down(e), k) == Payloads(Down(d), k)
    {
      PayloadsAppend(Down(d), [OkMessage(m.host, d.nextId)], k);
    }
  }

  lemma OpenOneMessage(h: Host, d: Device, e: Device, m: Message, x: Message)
    requires IsOpened(d, e, m)
    ensures SentOk(h, d, x) && x.command != Close && !(x.command == Open && x.host == m.host) ==> SentOk(h, e, x)
    ensures QueuedOk(h, d, x) && !(x.command == Open && x.host == m.host) ==> QueuedOk(h, e, x)
    ensures DownOk(h, d, x) ==> DownOk(h, e, x)
  {
  }

  lemma OpenMessages(h: Host, d: Device, e: Device)
    requires h.out != [] && h.out[0].command == Open && IsOpened(d, e, h.out[0])
    requires MessagesOk(h, d)
    requires forall x :: x in TakenByDevice(h).out ==> x.command != Close
    ensures MessagesOk(TakenByDevice(h), e)
  {
    var m, f := h.out[0], TakenByDevice(h);
    var ok := OkMessage(m.host, d.nextId);
    TakenUp(h);
    OpenDown(d, e, m);
    assert SentOk(h, d, m);
    assert DownOk(h, e, ok);
    forall x
      ensures x in f.out && SentOk(h, d, x) ==> SentOk(f, e, x)
      ensures x in f.queue && QueuedOk(h, d, x) ==> QueuedOk(f, e, x)
      ensures DownOk(h, d, x) ==> DownOk(f, e, x)
    {
      OpenOneMessage(f, d, e, m, x);
      assert x in Up(f) && x.command == Open ==> x.host in OpenIds(Up(f));
    }
  }

  lemma OpenNothingLost(h: Host, d: Device, e: Device)
    requires h.out != [] && h.out[0].command == Open && IsOpened(d, e, h.out[0])
    requires NothingLost(h, d) && forall k :: k in d.streams ==> k < d.nextId
    ensures NothingLost(TakenByDevice(h), e)
  {
    var m, f := h.out[0], TakenByDevice(h);
    TakenUp(h);
    assert e.streams[d.nextId].host == m.host;
    forall r | r in h.requests
      ensures r in OpenIds(Up(f)) || !NoStreamFor(e, r)
    {
      if !NoStreamFor(d, r) {
        var k :| k in d.streams && d.streams[k].host == r;
        assert e.streams[k].host == r;
      }
    }
  }

  lemma OpenTables(h: Host, d: Device, e: Device)
    requires h.out != [] && h.out[0].command == Open && IsOpened(d, e, h.out[0])
    requires MessagesOk(h, d) && TablesOk(h, d)
    requires forall x :: x in h.out ==> x.command != Close
    ensures TablesOk(TakenByDevice(h), e)
  {
    var m, f := h.out[0], TakenByDevice(h);
    OpenDown(d, e, m);
    assert SentOk(h, d, m) && NoStreamFor(d, m.host);
    forall k | k in e.streams
      ensures Accounted(f, e, k)
    {
      if k == d.nextId {
        NewIdIsUnused(h, d);
        assert Pristine(e, k);
      } else {
        assert Accounted(h, d, k);
      }
    }
  }

  lemma NewIdIsUnused(h: Host, d: Device)
    requires MessagesOk(h, d)
    ensures Payloads(Down(d), d.nextId) == []
  {
    PayloadsEmpty(Down(d), d.nextId);
    forall x | x in Down(d) && x.command == Write
      ensures x.dev != d.nextId
    {
      assert DownOk(h, d, x);
    }
  }

  lemma OpenDelivery(h: Host, d: Device, e: Device)
    requires h.out != [] && h.out[0].command == Open && IsOpened(d, e, h.out[0])
    requires TablesOk(h, d) && Delivery(h, d)
    ensures Delivery(TakenByDevice(h), e)
  {
    var f := TakenByDevice(h);
    TakenUp(h);
    OpenDown(d, e, h.out[0]);
    forall id | id in f.streams && f.streams[id].dev in e.streams
      ensures
        var s, t := f.streams[id], e.streams[f.streams[id].dev];
        s.frags == t.raw + Payloads(Up(f), s.dev) && t.frags == s.raw + Payloads(Down(e), s.dev)
    {
      var k := h.streams[id].dev;
      assert e.streams[k] == d.streams[k];
      assert Payloads(Up(h), k) == Payloads(Up(f), k);
    }
  }

  /** An unacknowledged Open or Write has no Close behind it. */
  lemma TokenAtHead(h: Host, d: Device)
    requires h.out != [] && h.out[0].command in TOKENS && TokenOk(h, d) && CloseFirst(h, d)
    ensures forall x :: x in h.out ==> x.command != Close
    ensures h.phase == H.Waiting && Count(TakenByDevice(h).out, TOKENS) == 0 && Count(Down(d), {Ok}) == 0
  {
    forall x | x in h.out
      ensures x.command != Close
    {
      var i :| 0 <= i < |h.out| && h.out[i] == x;
    }
  }

  /** The device answers an Open or a Write with an Ok (and, perhaps, with Writes). */
  lemma AnswerCounts(h: Host, d: Device, e: Device, more: seq<Message>)
    requires h.out != [] && h.out[0].command in TOKENS
    requires TokenOk(h, d) && CloseFirst(h, d) && WillRelease(h, d) && Window(h, d)
    requires e.queue == d.queue + more && Count(more, {Ok}) == 1
    requires e.out == d.out && e.phase == d.phase && e.released == d.released
    ensures var f := TakenByDevice(h); TokenOk(f, e) && CloseFirst(f, e) && WillRelease(f, e) && Window(f, e)
  {
    AnswerIsToken(h, d, e, more);
    TokenAtHead(h, d);
    TokenTakenIsLast(h, e);
    SameWindow(h, d, e);
  }

  /** The Ok takes the place of the message that it answers. */
  lemma AnswerIsToken(h: Host, d: Device, e: Device, more: seq<Message>)
    requires h.out != [] && h.out[0].command in TOKENS && TokenOk(h, d) && CloseFirst(h, d)
    requires e.out == d.out && e.queue == d.queue + more && Count(more, {Ok}) == 1
    ensures TokenOk(TakenByDevice(h), e)
  {
    TokenAtHead(h, d);
    assert Down(e) == Down(d) + more;
    CountAppend(Down(d), more, {Ok});
  }

  /** The Open or Write that the device has taken is neither an Ok nor a Close. */
  lemma SameWindow(h: Host, d: Device, e: Device)
    requires h.out != [] && h.out[0].command in TOKENS && WillRelease(h, d) && Window(h, d)
    requires e.out == d.out && e.phase == d.phase && e.released == d.released
    ensures WillRelease(TakenByDevice(h), e) && Window(TakenByDevice(h), e)
  {
    assert Count(h.out, {Ok}) == Count(h.out[1..], {Ok});
    assert Count(h.out, {Ok, Close}) == Count(h.out[1..], {Ok, Close});
  }

  /** Behind the one unacknowledged Open or Write there is neither another nor a Close. */
  lemma TokenTakenIsLast(h: Host, e: Device)
    requires h.out != [] && Count(h.out[1..], TOKENS) == 0 && forall x :: x in h.out ==> x.command != Close
    ensures CloseFirst(TakenByDevice(h), e)
  {
    var f := TakenByDevice(h);
    CountZero(f.out, TOKENS);
    assert forall x :: x in f.out ==> x in h.out;
    assert forall i :: 0 <= i < |f.out| ==> f.out[i] in f.out;
  }

  lemma OpenContents(h: Host, d: Device, e: Device)
    requires h.out != [] && h.out[0].command == Open && IsOpened(d, e, h.out[0])
    requires MessagesOk(h, d) && TablesOk(h, d) && Delivery(h, d) && NothingLost(h, d)
    requires TokenOk(h, d) && CloseFirst(h, d)
    ensures var f := TakenByDevice(h); MessagesOk(f, e) && TablesOk(f, e) && Delivery(f, e) && NothingLost(f, e)
  {
    TokenAtHead(h, d);
    TakenUp(h);
    OpenMessages(h, d, e);
    OpenNothingLost(h, d, e);
    OpenTables(h, d, e);
    OpenDelivery(h, d, e);
  }

  lemma OpenKeeps(h: Host, d: Device, e: Device)
    requires h.out != [] && h.out[0].command == Open && Invariant(h, d)
    requires IsOpened(d, e, h.out[0]) && e.phase == d.phase && e.released == d.released
    ensures Invariant(TakenByDevice(h), e)
  {
    OpenContents(h, d, e);
    AnswerCounts(h, d, e, [OkMessage(h.out[0].host, d.nextId)]);
  }

  // ---------- Write ----------

  /** What the other invariants see of the device after the Write `m`, to which
      its executor has answered with `fragments`. */
  predicate IsWritten(d: Device, e: Device, m: Message, fragments: seq<Bytes>) {
    && m.dev in d.streams
    && m.dev in e.streams
    && e.streams == d.streams[m.dev := e.streams[m.dev]]
    && e.streams[m.dev].host == d.streams[m.dev].host
    && e.streams[m.dev].raw == d.streams[m.dev].raw + [m.data]
    && e.streams[m.dev].frags == d.streams[m.dev].frags + fragments
    && e.queue == d.queue + Answer(m, fragments)
    && e.out == d.out && e.nextId == d.nextId
  }

  function Answer(m: Message, fragments: seq<Bytes>): seq<Message> {
    [OkMessage(m.host, m.dev)] + WriteMessages(m.host, m.dev, fragments)
  }

  lemma AnswerShape(m: Message, fragments: seq<Bytes>, k: nat)
    ensures Payloads(Answer(m, fragments), k) == if k == m.dev then fragments else []
    ensures Count(Answer(m, fragments), {Ok}) == 1
    ensures forall x :: x in Answer(m, fragments) ==>
      (x.command == Ok || x.command == Write) && x.host == m.host && x.dev == m.dev
  {
    PayloadsOfWrites(m.host, m.dev, fragments, k);
    assert Answer(m, fragments)[1..] == WriteMessages(m.host, m.dev, fragments);
  }

  lemma WriteOneMessage(h: Host, d: Device, e: Device, m: Message, fragments: seq<Bytes>, x: Message)
    requires IsWritten(d, e, m, fragments)
    ensures SentOk(h, d, x) ==> SentOk(h, e, x)
    ensures QueuedOk(h, d, x) ==> QueuedOk(h, e, x)
    ensures DownOk(h, d, x) ==> DownOk(h, e, x)
  {
    assert forall k :: k in d.streams <==> k in e.streams;
    assert forall k :: k in d.streams ==> d.streams[k].host == e.streams[k].host;
  }

  /** The stream of a Write on the wire exists on both sides. */
  lemma WriteIsPaired(h: Host, d: Device)
    requires h.out != [] && h.out[0].command == Write && MessagesOk(h, d) && TablesOk(h, d)
    ensures var m := h.out[0];
      Live(h, m) && m.dev in d.streams && d.streams[m.dev].host == m.host && m.host < h.nextId && m.dev < d.nextId
  {
    assert SentOk(h, d, h.out[0]);
  }

  lemma WriteMessagesKept(h: Host, d: Device, e: Device, fragments: seq<Bytes>)
    requires h.out != [] && h.out[0].command == Write && IsWritten(d, e, h.out[0], fragments)
    requires H.HostOk(h) && MessagesOk(h, d) && TablesOk(h, d)
    ensures MessagesOk(TakenByDevice(h), e)
  {
    var m, f := h.out[0], TakenByDevice(h);
    TakenUp(h);
    WriteIsPaired(h, d);
    AnswerShape(m, fragments, m.dev);
    assert Down(e) == Down(d) + Answer(m, fragments);
    forall x
      ensures SentOk(h, d, x) ==> SentOk(f, e, x)
      ensures QueuedOk(h, d, x) ==> QueuedOk(f, e, x)
      ensures DownOk(h, d, x) ==> DownOk(f, e, x)
    {
      WriteOneMessage(f, d, e, m, fragments, x);
    }
    forall x | x in Answer(m, fragments)
      ensures DownOk(f, e, x)
    {
      assert x.host == m.host && x.dev == m.dev;
    }
  }

  lemma WriteTables(h: Host, d: Device, e: Device, fragments: seq<Bytes>)
    requires h.out != [] && h.out[0].command == Write && IsWritten(d, e, h.out[0], fragments)
    requires MessagesOk(h, d) && TablesOk(h, d) && NothingLost(h, d)
    ensures TablesOk(TakenByDevice(h), e) && NothingLost(TakenByDevice(h), e)
  {
    assert forall k :: k in d.streams ==> d.streams[k].host == e.streams[k].host;
    forall k | k in e.streams
      ensures Accounted(TakenByDevice(h), e, k)
    {
      WriteAccounted(h, d, e, fragments, k);
    }
    WriteNothingLost(h, d, e, fragments);
  }

  lemma WriteAccounted(h: Host, d: Device, e: Device, fragments: seq<Bytes>, k: nat)
    requires h.out != [] && h.out[0].command == Write && IsWritten(d, e, h.out[0], fragments)
    requires MessagesOk(h, d) && TablesOk(h, d) && k in d.streams && k in e.streams
    ensures Accounted(TakenByDevice(h), e, k)
  {
    TakenUp(h);
    WriteIsPaired(h, d);
    assert Down(e) == Down(d) + Answer(h.out[0], fragments);
    assert Accounted(h, d, k);
    AnswerShape(h.out[0], fragments, k);
    PayloadsAppend(Down(d), Answer(h.out[0], fragments), k);
  }

  lemma WriteNothingLost(h: Host, d: Device, e: Device, fragments: seq<Bytes>)
    requires h.out != [] && h.out[0].command == Write && IsWritten(d, e, h.out[0], fragments)
    requires NothingLost(h, d)
    ensures NothingLost(TakenByDevice(h), e)
  {
    TakenUp(h);
    forall r | r in h.requests
      ensures r in OpenIds(Up(TakenByDevice(h))) || !NoStreamFor(e, r)
    {
      if !NoStreamFor(d, r) {
        var k :| k in d.streams && d.streams[k].host == r;
        assert e.streams[k].host == r;
      }
    }
  }

  /** What a Write and its answer add to the payloads of device stream `k`. */
  lemma WritePayloads(h: Host, d: Device, e: Device, fragments: seq<Bytes>, k: nat)
    requires h.out != [] && h.out[0].command == Write
    requires Down(e) == Down(d) + Answer(h.out[0], fragments)
    ensures Payloads(Up(h), k)
         == (if k == h.out[0].dev then [h.out[0].data] else []) + Payloads(Up(TakenByDevice(h)), k)
    ensures Payloads(Down(e), k) == Payloads(Down(d), k) + if k == h.out[0].dev then fragments else []
  {
    TakenUp(h);
    AnswerShape(h.out[0], fragments, k);
    PayloadsAppend(Down(d), Answer(h.out[0], fragments), k);
  }

  lemma WriteDelivery(h: Host, d: Device, e: Device, fragments: seq<Bytes>)
    requires h.out != [] && h.out[0].command == Write && IsWritten(d, e, h.out[0], fragments)
    requires TablesOk(h, d) && Delivery(h, d)
    ensures Delivery(TakenByDevice(h), e)
  {
    assert Down(e) == Down(d) + Answer(h.out[0], fragments);
    forall id | id in h.streams && h.streams[id].dev in e.streams
      ensures
        var s, t := h.streams[id], e.streams[h.streams[id].dev];
        s.frags == t.raw + Payloads(Up(TakenByDevice(h)), s.dev) && t.frags == s.raw + Payloads(Down(e), s.dev)
    {
      var s, k := h.streams[id], h.streams[id].dev;
      var t, u := d.streams[k], e.streams[k];
      WritePayloads(h, d, e, fragments, k);
      if k == h.out[0].dev {
        Associative(t.raw, [h.out[0].data], Payloads(Up(TakenByDevice(h)), k));
        Associative(s.raw, Payloads(Down(d), k), fragments);
      } else {
        assert u == t;
        assert [] + Payloads(Up(TakenByDevice(h)), k) == Payloads(Up(TakenByDevice(h)), k);
        assert Payloads(Down(d), k) + [] == Payloads(Down(d), k);
      }
    }
  }

  lemma WriteKeeps(h: Host, d: Device, e: Device, fragments: seq<Bytes>)
    requires H.HostOk(h) && h.out != [] && h.out[0].command == Write && Invariant(h, d)
    requires IsWritten(d, e, h.out[0], fragments) && e.phase == d.phase && e.released == d.released
    requires ArePackets(e.streams[h.out[0].dev].wrote)
    ensures Invariant(TakenByDevice(h), e)
  {
    WriteMessagesKept(h, d, e, fragments);
    WriteTables(h, d, e, fragments);
    WriteDelivery(h, d, e, fragments);
    AnswerShape(h.out[0], fragments, 0);
    AnswerCounts(h, d, e, Answer(h.out[0], fragments));
    WritePackets(d, e, h.out[0], fragments);
  }

  lemma WritePackets(d: Device, e: Device, m: Message, fragments: seq<Bytes>)
    requires PacketsOk(d) && IsWritten(d, e, m, fragments) && ArePackets(e.streams[m.dev].wrote)
    ensures PacketsOk(e)
  {
  }

  // ---------- Close ----------

  lemma CloseMessages(h: Host, d: Device, e: Device)
    requires h.out != [] && h.out[0].command == Close
    requires MessagesOk(h, d) && CloseFirst(h, d)
    requires e.streams == d.streams - {h.out[0].dev} && e.nextId == d.nextId && e.out == d.out
    requires e.queue == if h.out[0].dev in d.streams then WithoutDev(d.queue, h.out[0].dev) else d.queue
    ensures MessagesOk(TakenByDevice(h), e)
  {
    var m, f := h.out[0], TakenByDevice(h);
    TakenUp(h);
    CountZero(Down(d), {Ok});
    assert forall x :: x in Down(e) ==> x in Down(d);
    forall x
      ensures SentOk(h, d, x) ==> SentOk(f, e, x)
      ensures QueuedOk(h, d, x) ==> QueuedOk(f, e, x)
      ensures x.command != Ok && DownOk(h, d, x) ==> DownOk(f, e, x)
    {
    }
  }

  lemma CloseTables(h: Host, d: Device, e: Device)
    requires h.out != [] && h.out[0].command == Close && SentOk(h, d, h.out[0])
    requires TablesOk(h, d) && CloseFirst(h, d)
    requires e.streams == d.streams - {h.out[0].dev} && e.nextId == d.nextId
    ensures TablesOk(TakenByDevice(h), e)
  {
    var m, f := h.out[0], TakenByDevice(h);
    TakenUp(h);
    CountZero(Down(d), {Ok});
    forall k | k in e.streams
      ensures Accounted(f, e, k)
    {
      assert Accounted(h, d, k);
    }
  }

  lemma CloseNothingLost(h: Host, d: Device, e: Device)
    requires h.out != [] && h.out[0].command == Close && SentOk(h, d, h.out[0])
    requires NothingLost(h, d)
    requires e.streams == d.streams - {h.out[0].dev}
    ensures NothingLost(TakenByDevice(h), e)
  {
    var f := TakenByDevice(h);
    TakenUp(h);
    forall r | r in h.requests
      ensures r in OpenIds(Up(f)) || !NoStreamFor(e, r)
    {
      if !NoStreamFor(d, r) {
        var k :| k in d.streams && d.streams[k].host == r;
        assert e.streams[k].host == r;
      }
    }
  }

  lemma CloseDelivery(h: Host, d: Device, e: Device)
    requires h.out != [] && h.out[0].command == Close
    requires Delivery(h, d)
    requires e.streams == d.streams - {h.out[0].dev} && e.out == d.out
    requires e.queue == if h.out[0].dev in d.streams then WithoutDev(d.queue, h.out[0].dev) else d.queue
    ensures Delivery(TakenByDevice(h), e)
  {
    var gone, f := h.out[0].dev, TakenByDevice(h);
    TakenUp(h);
    forall id | id in f.streams && f.streams[id].dev in e.streams
      ensures
        var k := f.streams[id].dev;
        Payloads(Up(f), k) == Payloads(Up(h), k) && Payloads(Down(e), k) == Payloads(Down(d), k)
    {
      var k := f.streams[id].dev;
      PayloadsAppend(d.out, d.queue, k);
      PayloadsAppend(e.out, e.queue, k);
      PayloadsWithoutDev(d.queue, gone, k);
    }
  }

  lemma CloseCounts(h: Host, d: Device, e: Device)
    requires h.out != [] && h.out[0].command == Close
    requires TokenOk(h, d) && CloseFirst(h, d) && Window(h, d)
    requires e.out == d.out && e.phase == D.Connected
    requires e.released == if d.phase == D.Waiting then d.released + 1 else d.released
    requires forall x :: x in e.queue ==> x in d.queue
    ensures var f := TakenByDevice(h); TokenOk(f, e) && CloseFirst(f, e) && WillRelease(f, e) && Window(f, e)
  {
    CountZero(Down(d), {Ok});
    CountZero(Down(e), {Ok});
    TakenUp(h);
  }

  lemma CloseKeeps(h: Host, d: Device, e: Device)
    requires h.out != [] && h.out[0].command == Close && Invariant(h, d)
    requires e.streams == d.streams - {h.out[0].dev} && e.nextId == d.nextId && e.out == d.out && e.phase == D.Connected
    requires e.queue == if h.out[0].dev in d.streams then WithoutDev(d.queue, h.out[0].dev) else d.queue
    requires e.released == if d.phase == D.Waiting then d.released + 1 else d.released
    ensures Invariant(TakenByDevice(h), e)
  {
    assert SentOk(h, d, h.out[0]);
    CloseMessages(h, d, e);
    CloseTables(h, d, e);
    CloseNothingLost(h, d, e);
    CloseDelivery(h, d, e);
    CloseCounts(h, d, e);
  }

  // ---------- Ok ----------

  /** Taking an Ok from the wire changes nothing for the tables and the histories. */
  lemma OkTaken(h: Host, d: Device)
    requires h.out != [] && h.out[0].command == Ok
    requires MessagesOk(h, d) && TablesOk(h, d) && Delivery(h, d) && NothingLost(h, d)
    ensures var f := TakenByDevice(h); MessagesOk(f, d) && TablesOk(f, d) && Delivery(f, d) && NothingLost(f, d)
  {
    var f := TakenByDevice(h);
    TakenUp(h);
    forall x
      ensures SentOk(h, d, x) ==> SentOk(f, d, x)
      ensures QueuedOk(h, d, x) ==> QueuedOk(f, d, x)
      ensures DownOk(h, d, x) ==> DownOk(f, d, x)
    {
    }
  }

  lemma OkContents(h: Host, d: Device, e: Device)
    requires h.out != [] && h.out[0].command == Ok
    requires MessagesOk(h, d) && TablesOk(h, d) && Delivery(h, d) && NothingLost(h, d)
    requires e == d.(phase := D.Connected)
    ensures var f := TakenByDevice(h); MessagesOk(f, e) && TablesOk(f, e) && Delivery(f, e) && NothingLost(f, e)
  {
    OkTaken(h, d);
    SameContents(TakenByDevice(h), d, e);
  }

  lemma OkKeeps(h: Host, d: Device, e: Device)
    requires h.out != [] && h.out[0].command == Ok && Invariant(h, d)
    requires e == d.(phase := D.Connected)
    ensures Invariant(TakenByDevice(h), e)
  {
    OkContents(h, d, e);
    TakenUp(h);
  }
}
