/** Stream ids over whole runs, resets included: ids are never reused, every pair
    of ids in use is one the device has minted, and the history of each host id
    is well formed. */
module Identity {
  import opened Protocol
  import opened Streams
  import opened Grammar
  import H = HostMachine
  import D = DeviceMachine

  /** The device has minted `m.dev` for `m.host`. */
  predicate Pair(d: D.Device, m: Message) {
    m.dev in d.minted && d.minted[m.dev] == m.host
  }

  predicate IsStreamMessage(m: Message) {
    m.command == Write || m.command == Close || m.command == Ok
  }

  /** A message to the device, sent or queued, about a stream that exists or has existed. */
  predicate UpOk(h: H.Host, d: D.Device, m: Message) {
    IsStreamMessage(m) ==> Pair(d, m) && m.host !in h.requests
  }

  predicate DownOk(h: H.Host, d: D.Device, m: Message) {
    IsStreamMessage(m) ==> Pair(d, m) && (m.command != Ok ==> m.host !in h.requests)
  }

  ghost predicate MessagesOk(h: H.Host, d: D.Device) {
    && (forall m :: m in h.out ==> UpOk(h, d, m))
    && (forall m :: m in h.queue ==> UpOk(h, d, m))
    && (forall m :: m in d.out ==> DownOk(h, d, m))
    && (forall m :: m in d.queue ==> DownOk(h, d, m))
  }

  predicate NotMinted(d: D.Device, id: nat) {
    forall k :: k in d.minted ==> d.minted[k] != id
  }

  /** Device ids are minted once each and for different host ids. */
  ghost predicate MintedOk(h: H.Host, d: D.Device) {
    && (forall k :: k in d.minted ==> 1 <= k < d.nextId && 1 <= d.minted[k] < h.nextId)
    && (forall k, l :: k in d.minted && l in d.minted && d.minted[k] == d.minted[l] ==> k == l)
  }

  ghost predicate OpensOk(h: H.Host, d: D.Device) {
    && DistinctOpens(h.out + h.queue)
    && (forall id :: id in OpenIds(h.out + h.queue) ==> 1 <= id < h.nextId && NotMinted(d, id))
  }

  ghost predicate TablesOk(h: H.Host, d: D.Device) {
    && (forall k :: k in d.streams ==> d.streams[k].dev == k && k in d.minted && d.minted[k] == d.streams[k].host)
    && (forall id :: id in h.streams ==> h.streams[id].dev in d.minted && d.minted[h.streams[id].dev] == id)
  }

  ghost predicate HistoryOk(h: H.Host, d: D.Device) {
    && (forall id :: 1 <= id ==> StageOf(h.log, id) != Wrong)
    && (forall id :: h.nextId <= id ==> StageOf(h.log, id) == Unopened)
    && (forall id :: id in OpenIds(h.queue) ==> StageOf(h.log, id) == Unopened)
    && (forall id :: id in OpenIds(h.out) ==> StageOf(h.log, id) != Unopened)
    && (forall k :: k in d.minted ==> StageOf(h.log, d.minted[k]) != Unopened)
    && (forall id :: id in h.streams ==> StageOf(h.log, id) == Stage.Open)
    && (forall id :: id in h.requests ==> StageOf(h.log, id) != Closed)
  }

  /** Nothing is queued on a stream behind its Close. */
  predicate CloseIsLast(s: seq<Message>) {
    s == []
    || ((s[0].command == Close ==> forall m :: m in s[1..] && m.command == Write ==> m.host != s[0].host)
        && CloseIsLast(s[1..]))
  }

  /** The fragments of a stream are those sent in its name and those queued. */
  ghost predicate FlushOk(h: H.Host, d: D.Device) {
    && (forall id :: id in h.streams ==>
         h.streams[id].frags == Payloads(h.log, h.streams[id].dev) + Payloads(h.queue, h.streams[id].dev))
    && (forall m :: m in h.log && m.command == Write ==> Pair(d, m) && m.host !in h.requests)
    && CloseIsLast(h.queue)
  }

  ghost predicate Invariant(h: H.Host, d: D.Device) {
    && MessagesOk(h, d)
    && MintedOk(h, d)
    && OpensOk(h, d)
    && TablesOk(h, d)
    && HistoryOk(h, d)
    && FlushOk(h, d)
  }

  lemma InvariantAtPowerOn()
    ensures Invariant(H.INITIAL, D.INITIAL)
  {
  }

}
