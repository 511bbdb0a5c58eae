/**
 * UDP multicast sender and receiver with debounced port switching. The
 * socket is abstracted: the sender records the datagrams it hands to the
 * socket, the receiver holds the datagrams queued on its bound port.
 */
module Udp {
  import opened Wrappers
  import opened Values
  import Debounce

  const MulticastGroup: string := "239.255.42.99"
  const MulticastTtl: int := 1
  const DefaultPort: int := 9400

  /** A datagram handed to the socket: destination port and UTF-8 text. */
  datatype Datagram = Datagram(port: int, payload: string)

  /** What `send` puts on the wire: a dict as JSON text, anything else as `str()`. */
  function Payload(message: Value, dumps: Value -> string): (r: string)
    ensures message.Dict? ==> r == dumps(message)
    ensures message.Str? ==> r == message.s
    ensures !message.Dict? ==> r == ToStr(message)
  {
    if message.Dict? then dumps(message) else ToStr(message)
  }

  /** What `poll` makes of a datagram: the decoded JSON document, or the raw text when it is not JSON. */
  function Decoded(decode: string -> Option<Value>, text: string): (r: Value)
    ensures decode(text).Some? ==> r == decode(text).value
    ensures decode(text).None? ==> r == Str(text)
  {
    match decode(text)
    case Some(v) => v
    case None => Str(text)
  }

  /** Values `json.dumps` accepts: everything but a tensor, at any depth. */
  predicate Encodable(v: Value)
  {
    match v
    case Tensor(_, _) => false
    case List(items) => forall i :: 0 <= i < |items| ==> Encodable(items[i])
    case Tuple(items) => forall i :: 0 <= i < |items| ==> Encodable(items[i])
    case Dict(entries) => forall i :: 0 <= i < |entries| ==> Encodable(entries[i].1)
    case _ => true
  }

  /** The `TypeError` `json.dumps` raises on a tensor. */
  const NotSerializable: string := "Object of type Tensor is not JSON serializable"

  class UDPSender {
    var port: int
    var pendingPort: Option<int>
    var portChangedAt: real
    /** Every datagram handed to the socket so far, in order. */
    var sent: seq<Datagram>

    function State(): Debounce.State<int>
      reads this
    {
      Debounce.State(port, pendingPort, portChangedAt)
    }

    constructor(port: int)
      ensures State() == Debounce.Init(port) && sent == []
    {
      this.port := port;
      pendingPort := None;
      portChangedAt := 0.0;
      sent := [];
    }

    /**
     * Broadcast `message` on the current port; `delivered` is whether the
     * socket accepts it. A socket failure is only logged, but encoding a dict
     * happens before that guard, so a dict JSON cannot encode raises.
     */
    method Send(message: Value, dumps: Value -> string, delivered: bool) returns (result: Result<()>)
      modifies this
      ensures State() == old(State())
      ensures message.Dict? && !Encodable(message) ==> result == Failure(NotSerializable) && sent == old(sent)
      ensures !message.Dict? || Encodable(message) ==>
        result == Success(()) &&
        sent == old(sent) + if delivered then [Datagram(port, Payload(message, dumps))] else []
    {
      if message.Dict? && !Encodable(message) {
        return Failure(NotSerializable);
      }
      var payload := if message.Dict? then dumps(message) else ToStr(message);
      if delivered {
        sent := sent + [Datagram(port, payload)];
      }
      result := Success(());
    }

    /** Debounced port change: the new port is used once it has stayed requested for 3 seconds. */
    method UpdatePort(newPort: int, now: real)
      modifies this
      ensures State() == Debounce.Propose(old(State()), newPort, now)
      ensures sent == old(sent)
    {
      if newPort == port {
        pendingPort := None;
        return;
      }
      if Some(newPort) != pendingPort {
        pendingPort := Some(newPort);
        portChangedAt := now;
        return;
      }
      if now - portChangedAt >= Debounce.RebindDelay {
        port := newPort;
        pendingPort := None;
      }
    }
  }

  class UDPReceiver {
    var port: int
    var pendingPort: Option<int>
    var portChangedAt: real
    /** Datagrams received on the bound socket and not yet read. */
    var queue: seq<string>

    function State(): Debounce.State<int>
      reads this
    {
      Debounce.State(port, pendingPort, portChangedAt)
    }

    /** Binds to `port` and joins the multicast group; a fresh socket has nothing queued. */
    constructor(port: int)
      ensures State() == Debounce.Init(port) && queue == []
    {
      this.port := port;
      pendingPort := None;
      portChangedAt := 0.0;
      queue := [];
    }

    /** A datagram sent to the bound port arrives on the socket. */
    method Arrive(datagram: string)
      modifies this
      ensures State() == old(State())
      ensures queue == old(queue) + [datagram]
    {
      queue := queue + [datagram];
    }

    /**
     * Drain the socket and return the latest message only, decoded; Python's
     * None when nothing was queued (and also when the latest datagram is the
     * JSON text `null`).
     */
    method Poll(decode: string -> Option<Value>) returns (latest: Value)
      modifies this
      ensures State() == old(State())
      ensures queue == []
      ensures latest == if old(queue) == [] then NoneValue else Decoded(decode, old(queue)[|old(queue)| - 1])
    {
      latest := NoneValue;
      var read: seq<string> := [];
      while queue != []
        invariant read + queue == old(queue)
        invariant latest == if read == [] then NoneValue else Decoded(decode, read[|read| - 1])
        invariant State() == old(State())
        decreases |queue|
      {
        var text := queue[0];
        queue := queue[1..];
        read := read + [text];
        match decode(text)
        case Some(v) =>
          latest := v;
        case None =>
          latest := Str(text);
      }
      assert read == old(queue);
    }

    /** Debounced port change; on commit the old socket is closed and a new one bound, so nothing queued carries over. */
    method UpdatePort(newPort: int, now: real)
      modifies this
      ensures State() == Debounce.Propose(old(State()), newPort, now)
      ensures queue == if port != old(port) then [] else old(queue)
    {
      if newPort == port {
        pendingPort := None;
        return;
      }
      if Some(newPort) != pendingPort {
        pendingPort := Some(newPort);
        portChangedAt := now;
        return;
      }
      if now - portChangedAt >= Debounce.RebindDelay {
        port := newPort;
        queue := [];
        pendingPort := None;
      }
    }
  }

  /**
   * A dict sent on port 9400 is polled back decoded by a receiver on 9400;
   * a single request for 9401 leaves both ends on 9400, and repeating it
   * 3 seconds later moves both to 9401 and drops what the receiver had queued.
   */
  method PortSwitchScenario(msg: Value, dumps: Value -> string, decode: string -> Option<Value>, t: real)
    returns (received: Value, portsAfterFirst: (int, int), portsAfterSettle: (int, int), leftOver: seq<string>)
    requires msg.Dict? && Encodable(msg) && decode(dumps(msg)) == Some(msg)
    ensures received == msg
    ensures portsAfterFirst == (9400, 9400)
    ensures portsAfterSettle == (9401, 9401)
    ensures leftOver == []
  {
    var sender := new UDPSender(9400);
    var receiver := new UDPReceiver(9400);
    var sendResult := sender.Send(msg, dumps, true);
    receiver.Arrive(sender.sent[0].payload);
    received := receiver.Poll(decode);

    sender.UpdatePort(9401, t);
    receiver.UpdatePort(9401, t);
    portsAfterFirst := (sender.port, receiver.port);

    receiver.Arrive(dumps(msg));
    sender.UpdatePort(9401, t + Debounce.RebindDelay);
    receiver.UpdatePort(9401, t + Debounce.RebindDelay);
    portsAfterSettle := (sender.port, receiver.port);
    leftOver := receiver.queue;
  }

  /** A dict holding a tensor raises from `send`, whether or not the socket would accept it, and nothing is sent. */
  method UnencodableScenario(shape: seq<int>, dtype: string, dumps: Value -> string, delivered: bool)
    returns (result: Result<()>, sent: seq<Datagram>)
    ensures result == Failure(NotSerializable)
    ensures sent == []
  {
    var sender := new UDPSender(9400);
    var msg := Dict([("frame", Tensor(shape, dtype))]);
    assert !Encodable(msg.entries[0].1);
    result := sender.Send(msg, dumps, delivered);
    sent := sender.sent;
  }
}
