/**
 The port table of one multiplexer: how local events and received messages change it.

 Every message, event and port carries the number of the channel incarnation it belongs to
 (`chan`). The tag is a history variable: no handler looks at it, it only lets the
 invariants tell successive users of one port number apart.
 */
module PortMux {
  import opened Types

  type ChanId = nat

  datatype Port =
    | Connecting(chan: ChanId)
    | Connected(chan: ChanId,
                remotePort: SidePort,
                receiverOpen: bool,
                receiverClosed: bool,
                receiverDropped: bool,
                senderDropped: bool,
                remoteReceiverClosed: bool,
                remoteReceiverDropped: bool)

  datatype Msg =
    | OpenPort(clientPort: u32, chan: ChanId)
    | PortOpened(clientPort: u32, serverPort: SidePort, chan: ChanId)
    | Rejected(clientPort: u32, noPorts: bool, chan: ChanId)
    | Data(port: SidePort, chan: ChanId)
    | PortData(port: SidePort, chan: ChanId)
    | RequestReceivedReport(port: SidePort, chan: ChanId)
    | ReceivedReport(port: SidePort, chan: ChanId)
    | PortCredits(port: SidePort, credits: u32, chan: ChanId)
    | InhibitGlobalCreditUsageByPort(port: SidePort, chan: ChanId)
    | AllowGlobalCreditUsageByPort(port: SidePort, chan: ChanId)
    | SendFinish(port: SidePort, chan: ChanId)
    | ReceiveClose(port: SidePort, chan: ChanId)
    | ReceiveFinish(port: SidePort, chan: ChanId)

  datatype PortEvt =
    | ConnectReq(localNum: u32, chan: ChanId)
    | SendData(remotePort: SidePort, chan: ChanId)
    | SendPorts(remotePort: SidePort, chan: ChanId)
    | RequestReport(localPort: SidePort, chan: ChanId)
    | SenderDropped(localPort: SidePort, chan: ChanId)
    | ReceiverClosed(localPort: SidePort, chan: ChanId)
    | ReceiverDropped(localPort: SidePort, chan: ChanId)
    | AcceptedReq(localPort: SidePort, remoteNum: u32, chan: ChanId)
    | RejectedReq(remoteNum: u32, noPorts: bool, chan: ChanId)
    | SendReport(remotePort: SidePort, chan: ChanId)
    | ReturnCredits(remotePort: SidePort, credits: u32, chan: ChanId)
    | ChangeGlobalCreditUsage(remotePort: SidePort, allow: bool, chan: ChanId)

  /** The multiplexer fields that decide whether a port exists. */
  datatype Mux = Mux(
    ports: map<SidePort, Port>,
    outstanding: set<u32>,
    localUsed: set<u32>,
    remoteUsed: set<u32>)

  /** A handler either succeeds or ends the connection with a panic or protocol error. */
  datatype Outcome = Done(mux: Mux) | Failed

  datatype Sending = Sent(mux: Mux, msg: Msg) | Panicked

  function FreshPort(chan: ChanId, remotePort: SidePort): Port {
    Connected(chan, remotePort, true, false, false, false, false, false)
  }

  /** Nothing can be sent or received for the port any more, by either side. */
  predicate Finished(p: Port) {
    p.Connected? && p.senderDropped && p.receiverDropped && !p.receiverOpen && p.remoteReceiverDropped
  }

  /** Dropping the allocated number together with its table entry. */
  function RemovePort(m: Mux, k: SidePort): Mux {
    Mux(m.ports - {k}, m.outstanding,
        if k.Local? then m.localUsed - {k.num} else m.localUsed,
        if k.Remote? then m.remoteUsed - {k.num} else m.remoteUsed)
  }

  function MaybeFree(m: Mux, k: SidePort): Mux
    requires k in m.ports
  {
    if Finished(m.ports[k]) then RemovePort(m, k) else m
  }

  function SetPort(m: Mux, k: SidePort, p: Port): Mux {
    m.(ports := m.ports[k := p])
  }

  /** Inserting a connected port panics when the key already holds one. */
  function Create(m: Mux, k: SidePort, remotePort: SidePort, chan: ChanId): Outcome {
    if k in m.ports && m.ports[k].Connected? then Failed
    else Done(SetPort(m, k, FreshPort(chan, remotePort)))
  }

  predicate IsConnected(m: Mux, k: SidePort) {
    k in m.ports && m.ports[k].Connected?
  }

  predicate Receives(m: Mux, k: SidePort) {
    IsConnected(m, k) && m.ports[k].receiverOpen
  }

  /** Local events: what is sent and how the table changes. */
  function HandleEvent(m: Mux, evt: PortEvt): Sending {
    match evt
    case ConnectReq(n, c) =>
      if Local(n) in m.ports then Panicked
      else Sent(SetPort(m, Local(n), Connecting(c)), OpenPort(n, c))
    case SendData(r, c) => Sent(m, Data(r, c))
    case SendPorts(r, c) => Sent(m, PortData(r, c))
    case RequestReport(k, c) =>
      if !IsConnected(m, k) then Panicked
      else Sent(m, RequestReceivedReport(m.ports[k].remotePort, c))
    case SenderDropped(k, c) =>
      if !IsConnected(m, k) || m.ports[k].senderDropped then Panicked
      else
        var p := m.ports[k].(senderDropped := true);
        Sent(MaybeFree(SetPort(m, k, p), k), SendFinish(p.remotePort, c))
    case ReceiverClosed(k, c) =>
      if !IsConnected(m, k) || m.ports[k].receiverClosed || m.ports[k].receiverDropped then Panicked
      else
        var p := m.ports[k].(receiverClosed := true);
        Sent(SetPort(m, k, p), ReceiveClose(p.remotePort, c))
    case ReceiverDropped(k, c) =>
      if !IsConnected(m, k) || m.ports[k].receiverDropped then Panicked
      else
        var p := m.ports[k].(receiverDropped := true);
        Sent(MaybeFree(SetPort(m, k, p), k), ReceiveFinish(p.remotePort, c))
    case AcceptedReq(k, n, c) =>
      if n !in m.outstanding then Panicked
      else
        (match Create(m.(outstanding := m.outstanding - {n}), k, Remote(n), c)
         case Failed => Panicked
         case Done(m') => Sent(m', PortOpened(n, k, c)))
    case RejectedReq(n, noPorts, c) =>
      if n !in m.outstanding then Panicked
      else Sent(m.(outstanding := m.outstanding - {n}), Rejected(n, noPorts, c))
    case SendReport(r, c) => Sent(m, ReceivedReport(r, c))
    case ReturnCredits(r, n, c) => Sent(m, PortCredits(r, n, c))
    case ChangeGlobalCreditUsage(r, allow, c) =>
      Sent(m, if allow then AllowGlobalCreditUsageByPort(r, c) else InhibitGlobalCreditUsageByPort(r, c))
  }

  /** Messages from the other endpoint. Credit messages for unknown ports are ignored. */
  function HandleReceived(m: Mux, msg: Msg): Outcome {
    match msg
    case OpenPort(n, c) =>
      if n in m.outstanding then Failed else Done(m.(outstanding := m.outstanding + {n}))
    case PortOpened(n, server, c) =>
      if Local(n) !in m.ports || !m.ports[Local(n)].Connecting? then Failed
      else Create(m, Local(n), server.Flipped(), c)
    case Rejected(n, _, c) =>
      if Local(n) !in m.ports || !m.ports[Local(n)].Connecting? then Failed
      else Done(RemovePort(m, Local(n)))
    case Data(p, c) => if Receives(m, p.Flipped()) then Done(m) else Failed
    case PortData(p, c) => if Receives(m, p.Flipped()) then Done(m) else Failed
    case RequestReceivedReport(p, c) => if Receives(m, p.Flipped()) then Done(m) else Failed
    case ReceivedReport(_, _) => Done(m)
    case PortCredits(_, _, _) => Done(m)
    case InhibitGlobalCreditUsageByPort(_, _) => Done(m)
    case AllowGlobalCreditUsageByPort(_, _) => Done(m)
    case SendFinish(p, c) =>
      var k := p.Flipped();
      if !Receives(m, k) then Failed
      else Done(MaybeFree(SetPort(m, k, m.ports[k].(receiverOpen := false)), k))
    case ReceiveClose(p, c) =>
      var k := p.Flipped();
      if !IsConnected(m, k) || m.ports[k].remoteReceiverClosed then Failed
      else Done(MaybeFree(SetPort(m, k, m.ports[k].(remoteReceiverClosed := true)), k))
    case ReceiveFinish(p, c) =>
      var k := p.Flipped();
      if !IsConnected(m, k) then Failed
      else Done(MaybeFree(SetPort(m, k, m.ports[k].(remoteReceiverClosed := true, remoteReceiverDropped := true)), k))
  }

  /** The multiplexer as an object whose handlers update its tables in place. */
  class ChMux {
    var ports: map<SidePort, Port>
    var outstanding: set<u32>
    var localUsed: set<u32>
    var remoteUsed: set<u32>

    function Value(): Mux
      reads this
    {
      Mux(ports, outstanding, localUsed, remoteUsed)
    }

    constructor ()
      ensures Value() == Mux(map[], {}, {}, {})
    {
      ports, outstanding, localUsed, remoteUsed := map[], {}, {}, {};
    }

    method DropPort(k: SidePort)
      modifies this
      ensures Value() == RemovePort(old(Value()), k)
    {
      ports := ports - {k};
      match k
      case Local(n) => localUsed := localUsed - {n};
      case Remote(n) => remoteUsed := remoteUsed - {n};
    }

    method MaybeFreePort(k: SidePort)
      requires k in ports && ports[k].Connected?
      modifies this
      ensures Value() == MaybeFree(old(Value()), k)
    {
      var free := true;
      var p := ports[k];
      free := free && p.senderDropped;
      free := free && p.receiverDropped;
      free := free && !p.receiverOpen;
      free := free && p.remoteReceiverDropped;
      if free {
        DropPort(k);
      }
    }

    method CreatePort(k: SidePort, remotePort: SidePort, chan: ChanId) returns (ok: bool)
      modifies this
      ensures ok <==> Create(old(Value()), k, remotePort, chan).Done?
      ensures ok ==> Value() == Create(old(Value()), k, remotePort, chan).mux
      ensures !ok ==> Value() == old(Value())
    {
      if k in ports && ports[k].Connected? {
        return false;
      }
      ports := ports[k := FreshPort(chan, remotePort)];
      ok := true;
    }

    method Handle(evt: PortEvt) returns (r: Option<Msg>)
      modifies this
      ensures r.None? <==> HandleEvent(old(Value()), evt).Panicked?
      ensures r.Some? ==> HandleEvent(old(Value()), evt) == Sent(Value(), r.value)
    {
      r := None;
      match evt {
        case ConnectReq(n, c) =>
          if Local(n) !in ports {
            ports := ports[Local(n) := Connecting(c)];
            r := Some(OpenPort(n, c));
          }
        case SendData(rp, c) => r := Some(Data(rp, c));
        case SendPorts(rp, c) => r := Some(PortData(rp, c));
        case RequestReport(k, c) =>
          if k in ports && ports[k].Connected? {
            r := Some(RequestReceivedReport(ports[k].remotePort, c));
          }
        case SenderDropped(k, c) =>
          if k in ports && ports[k].Connected? && !ports[k].senderDropped {
            var remote := ports[k].remotePort;
            ports := ports[k := ports[k].(senderDropped := true)];
            MaybeFreePort(k);
            r := Some(SendFinish(remote, c));
          }
        case ReceiverClosed(k, c) =>
          if k in ports && ports[k].Connected? && !ports[k].receiverClosed && !ports[k].receiverDropped {
            ports := ports[k := ports[k].(receiverClosed := true)];
            r := Some(ReceiveClose(ports[k].remotePort, c));
          }
        case ReceiverDropped(k, c) =>
          if k in ports && ports[k].Connected? && !ports[k].receiverDropped {
            var remote := ports[k].remotePort;
            ports := ports[k := ports[k].(receiverDropped := true)];
            MaybeFreePort(k);
            r := Some(ReceiveFinish(remote, c));
          }
        case AcceptedReq(k, n, c) =>
          if n in outstanding {
            outstanding := outstanding - {n};
            var ok := CreatePort(k, Remote(n), c);
            if ok {
              r := Some(PortOpened(n, k, c));
            }
          }
        case RejectedReq(n, noPorts, c) =>
          if n in outstanding {
            outstanding := outstanding - {n};
            r := Some(Rejected(n, noPorts, c));
          }
        case SendReport(rp, c) => r := Some(ReceivedReport(rp, c));
        case ReturnCredits(rp, n, c) => r := Some(PortCredits(rp, n, c));
        case ChangeGlobalCreditUsage(rp, allow, c) =>
          r := Some(if allow then AllowGlobalCreditUsageByPort(rp, c) else InhibitGlobalCreditUsageByPort(rp, c));
      }
    }

    method Receive(msg: Msg) returns (ok: bool)
      modifies this
      ensures ok <==> HandleReceived(old(Value()), msg).Done?
      ensures ok ==> Value() == HandleReceived(old(Value()), msg).mux
    {
      ok := true;
      match msg {
        case OpenPort(n, _) =>
          ok := n !in outstanding;
          outstanding := outstanding + {n};
        case PortOpened(n, server, c) =>
          ok := Local(n) in ports && ports[Local(n)].Connecting?;
          if ok {
            ok := CreatePort(Local(n), server.Flipped(), c);
          }
        case Rejected(n, _, _) =>
          ok := Local(n) in ports && ports[Local(n)].Connecting?;
          if ok {
            DropPort(Local(n));
          }
        case Data(p, _) => ok := Receives(Value(), p.Flipped());
        case PortData(p, _) => ok := Receives(Value(), p.Flipped());
        case RequestReceivedReport(p, _) => ok := Receives(Value(), p.Flipped());
        case ReceivedReport(_, _) =>
        case PortCredits(_, _, _) =>
        case InhibitGlobalCreditUsageByPort(_, _) =>
        case AllowGlobalCreditUsageByPort(_, _) =>
        case SendFinish(p, _) =>
          var k := p.Flipped();
          ok := k in ports && ports[k].Connected? && ports[k].receiverOpen;
          if ok {
            ports := ports[k := ports[k].(receiverOpen := false)];
            MaybeFreePort(k);
          }
        case ReceiveClose(p, _) =>
          var k := p.Flipped();
          ok := k in ports && ports[k].Connected? && !ports[k].remoteReceiverClosed;
          if ok {
            ports := ports[k := ports[k].(remoteReceiverClosed := true)];
            MaybeFreePort(k);
          }
        case ReceiveFinish(p, _) =>
          var k := p.Flipped();
          ok := k in ports && ports[k].Connected?;
          if ok {
            ports := ports[k := ports[k].(remoteReceiverClosed := true)];
            ports := ports[k := ports[k].(remoteReceiverDropped := true)];
            MaybeFreePort(k);
          }
      }
    }
  }
}
