/** Each end on its own, with a peer that sends whatever it likes: the assertions
    of processQueue are unreachable. */
module Dispatch {
  import opened Protocol
  import opened Streams
  import H = HostMachine
  import D = DeviceMachine

  // ---------- The host ----------

  datatype HostCall =
    | Connect
    | Receive(message: Message)
    | CreateStream(tag: Bytes)
    | WritePacket(id: nat, packet: Packet)
    | RequestClose(id: nat)
    | CloseAll(order: seq<nat>)

  ghost predicate HostAllowed(h: H.Host, call: HostCall) {
    match call
    case Connect => h.phase == H.Disconnected && h.queue == []
    case Receive(message) => H.Supported(message)
    case CreateStream(_) => h.phase != H.Disconnected
    case WritePacket(id, _) => id in h.streams
    case RequestClose(id) => id in h.streams
    case CloseAll(order) => H.IsOrder(h, order)
  }

  ghost function HostNext(h: H.Host, call: HostCall): H.Host
    requires HostAllowed(h, call)
  {
    match call
    case Connect => H.Connect(h)
    case Receive(message) => H.Handle(h, message)
    case CreateStream(tag) => H.CreateStream(h, tag)
    case WritePacket(id, packet) => H.WritePacket(h, id, packet)
    case RequestClose(id) => H.RequestClose(h, id)
    case CloseAll(order) => H.CloseAll(h, order)
  }

  /** `states` are the states of a host along `calls`. */
  ghost predicate HostRun(states: seq<H.Host>, calls: seq<HostCall>) {
    && |states| == |calls| + 1
    && states[0] == H.INITIAL
    && forall i :: 0 <= i < |calls| ==>
      HostAllowed(states[i], calls[i]) && states[i + 1] == HostNext(states[i], calls[i])
  }

  lemma HostNextOk(h: H.Host, call: HostCall)
    requires H.HostOk(h) && HostAllowed(h, call)
    ensures H.HostOk(HostNext(h, call))
  {
    match call
    case Connect => H.ConnectOk(h);
    case Receive(message) => H.HandleOk(h, message);
    case CreateStream(tag) => H.CreateStreamOk(h, tag);
    case WritePacket(id, packet) => H.WritePacketOk(h, id, packet);
    case RequestClose(id) => H.RequestCloseOk(h, id);
    case CloseAll(order) => H.CloseAllOk(h, order);
  }

  /** In every state of every run: no assertion has failed, and what the next
      call of processQueue would send is allowed in the host's state. */
  lemma {:induction false} HostNeverFaults(states: seq<H.Host>, calls: seq<HostCall>, i: nat)
    requires HostRun(states, calls) && i < |states|
    ensures H.HostOk(states[i]) && !states[i].fault
    ensures states[i].phase != H.Disconnected && H.MaySend(states[i]) ==>
      H.DispatchAllowed(states[i].phase, states[i].queue[0].command)
  {
    if i > 0 {
      HostNeverFaults(states, calls, i - 1);
      HostNextOk(states[i - 1], calls[i - 1]);
    }
    if states[i].phase != H.Disconnected {
      H.HeadAllowed(states[i]);
    }
  }

  // ---------- The device ----------

  datatype Input = Input(message: Message, answer: Option<Packet>)

  ghost predicate DeviceRun(states: seq<D.Device>, inputs: seq<Input>) {
    && |states| == |inputs| + 1
    && states[0] == D.INITIAL
    && forall i :: 0 <= i < |inputs| ==>
      D.Supported(inputs[i].message) && states[i + 1] == D.Handle(states[i], inputs[i].message, inputs[i].answer)
  }

  /** In every state of every run: no assertion has failed, and the queue is empty
      unless the device waits for an Ok. */
  lemma {:induction false} DeviceNeverFaults(states: seq<D.Device>, inputs: seq<Input>, i: nat)
    requires DeviceRun(states, inputs) && i < |states|
    ensures D.DeviceOk(states[i]) && !states[i].fault
    ensures states[i].queue == [] || states[i].phase == D.Waiting
  {
    if i > 0 {
      DeviceNeverFaults(states, inputs, i - 1);
      D.HandleOk(states[i - 1], inputs[i - 1].message, inputs[i - 1].answer);
    }
  }
}
