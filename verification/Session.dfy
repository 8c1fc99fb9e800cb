/** What holds between the two ends during a session: from the moment the host
    has taken the reply to its last Connect until the next close or reset. */
module Session {
  import opened Protocol
  import opened Streams
  import H = HostMachine
  import D = DeviceMachine

  type Host = H.Host
  type Device = D.Device

  /** What the device has still to receive, sent or queued. */
  function Up(h: Host): seq<Message> {
    h.out + h.queue
  }

  /** What the host has still to receive, sent or queued. */
  function Down(d: Device): seq<Message> {
    d.out + d.queue
  }

  predicate InSession(h: Host) {
    h.phase == H.Connected || h.phase == H.Waiting
  }

  /** The message belongs to a stream that the host knows under this pair of ids. */
  predicate Live(h: Host, m: Message) {
    m.host in h.streams && h.streams[m.host].dev == m.dev
  }

  /** If the device has the stream at all, it has it under this pair of ids. */
  predicate Agrees(d: Device, m: Message) {
    m.dev < d.nextId && (m.dev in d.streams ==> d.streams[m.dev].host == m.host)
  }

  ghost predicate NoStreamFor(d: Device, host: nat) {
    forall k :: k in d.streams ==> d.streams[k].host != host
  }

  ghost predicate Requested(h: Host, d: Device, m: Message) {
    m.host in h.requests && NoStreamFor(d, m.host)
  }

  /** A message on the wire to the device. */
  ghost predicate SentOk(h: Host, d: Device, m: Message) {
    && m.host < h.nextId
    && match m.command
       case Open => Requested(h, d, m)
       case Write => Live(h, m)
       case Close => m.host !in h.streams && m.host !in h.requests && Agrees(d, m)
       case Ok => true
       case _ => false
  }

  /** A message in the host's queue. */
  ghost predicate QueuedOk(h: Host, d: Device, m: Message) {
    && m.host < h.nextId
    && match m.command
       case Open => Requested(h, d, m)
       case Write => Live(h, m)
       case Close =>
         && m == CloseMessage(m.host, m.dev)
         && m.host !in h.requests && Agrees(d, m) && (m.host in h.streams ==> Live(h, m))
       case _ => false
  }

  /** A message on the wire to the host or in the device's queue. */
  ghost predicate DownOk(h: Host, d: Device, m: Message) {
    && m.host < h.nextId && m.dev < d.nextId
    && match m.command
       case Ok => m.host in h.requests ==> m.dev in d.streams && d.streams[m.dev].host == m.host
       case Write => m.host !in h.requests && Agrees(d, m) && (m.host in h.streams ==> Live(h, m))
       case _ => false
  }

  ghost predicate MessagesOk(h: Host, d: Device) {
    && (forall m :: m in h.out ==> SentOk(h, d, m))
    && (forall m :: m in h.queue ==> QueuedOk(h, d, m))
    && (forall m :: m in Down(d) ==> DownOk(h, d, m))
    && (forall m :: m in d.queue && m.command == Write ==> m.dev in d.streams)
    && DistinctOpens(Up(h))
  }

  /** Nothing has happened on device stream `k` yet. */
  predicate Pristine(d: Device, k: nat)
    requires k in d.streams
  {
    d.streams[k].raw == [] && d.streams[k].frags == [] && Payloads(Down(d), k) == []
  }

  predicate Paired(h: Host, d: Device, k: nat)
    requires k in d.streams
  {
    d.streams[k].host in h.streams && h.streams[d.streams[k].host].dev == k
  }

  /** A device stream the host does not have is accounted for by an Ok on its
      way to the host or by a Close on its way to the device. */
  predicate Accounted(h: Host, d: Device, k: nat)
    requires k in d.streams
  {
    var host := d.streams[k].host;
    || Paired(h, d, k)
    || (host in h.requests && OkMessage(host, k) in Down(d) && Pristine(d, k))
    || (host !in h.requests && host !in h.streams && CloseMessage(host, k) in h.out)
  }

  ghost predicate TablesOk(h: Host, d: Device) {
    && (forall id :: id in h.streams ==>
         h.streams[id].dev in d.streams && d.streams[h.streams[id].dev].host == id)
    && (forall k :: k in d.streams ==> k < d.nextId && d.streams[k].host < h.nextId && Accounted(h, d, k))
    && (forall k, l :: k in d.streams && l in d.streams && d.streams[k].host == d.streams[l].host ==> k == l)
  }

  const TOKENS := {Open, Write}

  /** Stop-and-wait: the one unacknowledged Open or Write, or the Ok for it. */
  predicate TokenOk(h: Host, d: Device) {
    Count(h.out, TOKENS) + Count(Down(d), {Ok}) == if h.phase == H.Waiting then 1 else 0
  }

  /** The host sends a Close only when nothing is unacknowledged. */
  ghost predicate CloseFirst(h: Host, d: Device) {
    && (forall i, k :: 0 <= i < k < |h.out| && h.out[i].command in TOKENS ==> h.out[k].command != Close)
    && (forall m :: m in h.out && m.command == Close ==> Count(Down(d), {Ok}) == 0)
  }

  /** End to end, for each stream and each direction: the payloads received and
      those sent or queued are together the fragments written. */
  ghost predicate Delivery(h: Host, d: Device) {
    forall id :: id in h.streams && h.streams[id].dev in d.streams ==>
      var s, t := h.streams[id], d.streams[h.streams[id].dev];
      && s.frags == t.raw + Payloads(Up(h), s.dev)
      && t.frags == s.raw + Payloads(Down(d), s.dev)
  }

  /** On its way to the host is a Write that the host will acknowledge. */
  ghost predicate WillAcknowledge(h: Host, d: Device) {
    exists m :: m in d.out && m.command == Write && m.host in h.streams
  }

  /** A waiting device is going to be released by an Ok or a Close. */
  ghost predicate WillRelease(h: Host, d: Device) {
    d.phase == D.Waiting ==> Count(h.out, {Ok, Close}) > 0 || WillAcknowledge(h, d)
  }

  /** The device's window. */
  predicate Window(h: Host, d: Device) {
    Count(d.out, {Write}) + Count(h.out, {Ok}) <= (if d.phase == D.Waiting then 1 else 0) + d.released
  }

  /** Every request has its Open on the way or its stream on the device. */
  ghost predicate NothingLost(h: Host, d: Device) {
    forall r :: r in h.requests ==> r in OpenIds(Up(h)) || !NoStreamFor(d, r)
  }

  ghost predicate PacketsOk(d: Device) {
    forall k :: k in d.streams ==> ArePackets(d.streams[k].wrote)
  }

  ghost predicate Invariant(h: Host, d: Device) {
    && InSession(h)
    && d.phase != D.Disconnected
    && MessagesOk(h, d)
    && TablesOk(h, d)
    && TokenOk(h, d)
    && CloseFirst(h, d)
    && Delivery(h, d)
    && WillRelease(h, d)
    && Window(h, d)
    && NothingLost(h, d)
    && PacketsOk(d)
  }
}
