/** Host and device joined by two FIFO wires, as a transition system. */
module Joint {
  import opened Protocol
  import opened Streams
  import H = HostMachine
  import D = DeviceMachine

  datatype Joint = Joint(host: H.Host, dev: D.Device)

  /** A step: the delivery of one message, or one call of the application. */
  datatype Step =
    | Connect
    | ToDevice(answer: Option<Packet>)
    | ToHost
    | CreateStream(tag: Bytes)
    | WritePacket(id: nat, packet: Packet)
    | RequestClose(id: nat)
    | CloseAll(order: seq<nat>)

  predicate CloseRequested(h: H.Host, id: nat) {
    exists m :: m in h.queue && m.command == Close && m.host == id
  }

  predicate IsAnswer(answer: Option<Packet>) {
    answer.Some? ==> IsPacket(answer.value)
  }

  /** The application connects once and after that only uses an open connection;
      it does not write to a stream whose close it has requested. */
  ghost predicate Enabled(j: Joint, step: Step) {
    match step
    case Connect => j.host.phase == H.Disconnected && j.host.queue == []
    case ToDevice(answer) => j.host.out != [] && IsAnswer(answer)
    case ToHost => j.dev.out != []
    case CreateStream(tag) => j.host.phase != H.Disconnected && |tag| <= MAX_PAYLOAD
    case WritePacket(id, packet) => id in j.host.streams && !CloseRequested(j.host, id) && IsPacket(packet)
    case RequestClose(id) => id in j.host.streams
    case CloseAll(order) => H.IsOrder(j.host, order)
  }

  ghost function Next(j: Joint, step: Step): Joint
    requires Enabled(j, step)
  {
    match step
    case Connect => j.(host := H.Connect(j.host))
    case ToDevice(answer) =>
      Joint(j.host.(out := j.host.out[1..]), D.Handle(j.dev, j.host.out[0], answer))
    case ToHost =>
      Joint(H.Handle(j.host, j.dev.out[0]), j.dev.(out := j.dev.out[1..]))
    case CreateStream(tag) => j.(host := H.CreateStream(j.host, tag))
    case WritePacket(id, packet) => j.(host := H.WritePacket(j.host, id, packet))
    case RequestClose(id) => j.(host := H.RequestClose(j.host, id))
    case CloseAll(order) => j.(host := H.CloseAll(j.host, order))
  }

  /** A run from `j` along `steps`, each of them enabled. */
  ghost predicate IsRun(j: Joint, steps: seq<Step>)
    decreases |steps|
  {
    steps == [] || (Enabled(j, steps[0]) && IsRun(Next(j, steps[0]), steps[1..]))
  }

  ghost function After(j: Joint, steps: seq<Step>): Joint
    requires IsRun(j, steps)
    decreases |steps|
  {
    if steps == [] then j else After(Next(j, steps[0]), steps[1..])
  }

  /** A run can be continued by a run. */
  lemma {:induction false} RunsConcatenate(j: Joint, steps: seq<Step>, more: seq<Step>)
    requires IsRun(j, steps) && IsRun(After(j, steps), more)
    ensures IsRun(j, steps + more) && After(j, steps + more) == After(After(j, steps), more)
    decreases |steps|
  {
    if steps == [] {
      assert steps + more == more;
    } else {
      assert (steps + more)[0] == steps[0] && (steps + more)[1..] == steps[1..] + more;
      RunsConcatenate(Next(j, steps[0]), steps[1..], more);
    }
  }

  ghost predicate WiresOk(j: Joint) {
    && (forall m :: m in j.host.out ==> D.Supported(m) && (m.command == Command.Connect ==> VersionMatches(m.data)))
    && (forall m :: m in j.dev.out ==> H.Supported(m))
  }

  /** A host that has not connected yet, a device in any state an earlier host
      may have left it in, and wires that hold any supported messages. */
  ghost predicate Start(j: Joint) {
    && j.host == H.INITIAL.(out := j.host.out, nextId := j.host.nextId)
    && 1 <= j.host.nextId
    && D.DeviceOk(j.dev)
    && WiresOk(j)
  }

  /** Nothing has happened yet. */
  const POWER_ON := Joint(H.INITIAL, D.INITIAL)
}
