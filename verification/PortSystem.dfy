/**
 Two multiplexers joined by two ordered wires, with the applications that use them.

 A run is any sequence of steps. Steps that are not possible in a state leave it unchanged,
 so every theorem about `Run` covers every interleaving.
 */
module PortSystem {
  import opened Types
  import opened PortMux
  import opened PortChannel

  datatype Node = A | B

  function Peer(e: Node): Node {
    if e == A then B else A
  }

  /** Messages leaving an endpoint. The high-priority queue is always emptied first. */
  datatype Out = Out(wire: seq<Msg>, high: seq<Msg>, normal: seq<Msg>) {
    function Ordered(): seq<Msg> {
      wire + high
    }

    function All(): seq<Msg> {
      Ordered() + normal
    }
  }

  datatype Endpoint = Endpoint(
    mux: Mux,
    held: set<u32>,
    events: seq<PortEvt>,
    highEvents: seq<PortEvt>,
    handles: map<ChanId, Handles>,
    requests: map<ChanId, Request>,
    out: Out)

  /** History of a channel: who asked for it, under which number, and the accepting key. */
  datatype Chan = Chan(client: Node, num: u32, serverKey: Option<SidePort>)

  datatype System = System(a: Endpoint, b: Endpoint, chans: seq<Chan>, failed: bool)

  function Ep(s: System, e: Node): Endpoint {
    if e == A then s.a else s.b
  }

  function With(s: System, e: Node, ep: Endpoint): System {
    if e == A then s.(a := ep) else s.(b := ep)
  }

  const EMPTY := Endpoint(Mux(map[], {}, {}, {}), {}, [], [], map[], map[], Out([], [], []))

  const INIT := System(EMPTY, EMPTY, [], false)

  datatype Payload = Bytes | Ports | Report

  datatype NoteKind = CreditNote(credits: u32) | UsageNote(allow: bool) | ReportNote

  datatype Step =
    | Allocate(e: Node, num: u32)
    | Release(e: Node, num: u32)
    | Connect(e: Node, num: u32)
    | Accept(e: Node, c: ChanId, key: SidePort)
    | DropRequest(e: Node, c: ChanId)
    | QueueReject(e: Node, c: ChanId, noPorts: bool)
    | Send(e: Node, c: ChanId, payload: Payload)
    | CloseReceiver(e: Node, c: ChanId)
    | DropSender(e: Node, c: ChanId)
    | QueueSenderDropped(e: Node, c: ChanId)
    | DropReceiver(e: Node, c: ChanId)
    | QueueReceiverDropped(e: Node, c: ChanId)
    | QueueNote(e: Node, c: ChanId, note: NoteKind)
    | HandleNext(e: Node)
    | HandleHigh(e: Node)
    | Transmit(e: Node)
    | Deliver(e: Node)

  /** The key under which endpoint e files the channel. */
  function KeyOf(chans: seq<Chan>, e: Node, c: ChanId): Option<SidePort>
    requires c < |chans|
  {
    if chans[c].client == e then Some(Local(chans[c].num)) else chans[c].serverKey
  }

  predicate HasHandles(s: System, e: Node, c: ChanId) {
    && c < |s.chans|
    && c in Ep(s, e).handles
    && KeyOf(s.chans, e, c).Some?
    && KeyOf(s.chans, Peer(e), c).Some?
  }

  function AddEvent(ep: Endpoint, evt: PortEvt): Endpoint {
    ep.(events := ep.events + [evt])
  }

  /** A number is handed out only while nobody holds it. */
  predicate FreshKey(m: Mux, num: u32, key: SidePort) {
    match key
    case Remote(n) => n == num && n !in m.remoteUsed
    case Local(n) => n !in m.localUsed
  }

  function Reserve(m: Mux, key: SidePort): Mux {
    match key
    case Remote(n) => m.(remoteUsed := m.remoteUsed + {n})
    case Local(n) => m.(localUsed := m.localUsed + {n})
  }

  function PayloadEvent(p: Payload, mine: SidePort, theirs: SidePort, c: ChanId): PortEvt {
    match p
    case Bytes => SendData(theirs.Flipped(), c)
    case Ports => SendPorts(theirs.Flipped(), c)
    case Report => RequestReport(mine, c)
  }

  function NoteEvent(n: NoteKind, theirs: SidePort, c: ChanId): PortEvt {
    match n
    case CreditNote(k) => ReturnCredits(theirs.Flipped(), k, c)
    case UsageNote(allow) => ChangeGlobalCreditUsage(theirs.Flipped(), allow, c)
    case ReportNote => SendReport(theirs.Flipped(), c)
  }

  const LIVE := Handles(Live, Live, false)

  function Fail(s: System): System {
    s.(failed := true)
  }

  // One function for each kind of step.

  function DoConnect(s: System, e: Node, n: u32): System {
    var ep := Ep(s, e);
    var c := |s.chans|;
    if n !in ep.held then s
    else
      match HandleEvent(ep.mux, ConnectReq(n, c))
      case Panicked => Fail(s)
      case Sent(m, msg) =>
        With(s, e, ep.(mux := m, held := ep.held - {n}, out := ep.out.(normal := ep.out.normal + [msg])))
        .(chans := s.chans + [Chan(e, n, None)])
  }

  function DoAccept(s: System, e: Node, c: ChanId, key: SidePort): System {
    var ep := Ep(s, e);
    if c < |s.chans| && c in ep.requests && ep.requests[c] == Waiting && FreshKey(ep.mux, s.chans[c].num, key) then
      With(s, e, ep.(mux := Reserve(ep.mux, key),
                     requests := ep.requests - {c},
                     highEvents := ep.highEvents + [AcceptedReq(key, s.chans[c].num, c)]))
      .(chans := s.chans[c := s.chans[c].(serverKey := Some(key))])
    else s
  }

  function DoQueueReject(s: System, e: Node, c: ChanId, noPorts: bool): System {
    var ep := Ep(s, e);
    if c < |s.chans| && c in ep.requests && ep.requests[c] == RejectSpawned then
      With(s, e, ep.(requests := ep.requests - {c},
                     highEvents := ep.highEvents + [RejectedReq(s.chans[c].num, noPorts, c)]))
    else s
  }

  /** A report is asked for through a future of its own, which a dropped sender may leave behind. */
  predicate MaySend(h: Handles, p: Payload) {
    h.sender == Live || (p == Report && h.sender == DropSpawned)
  }

  function DoSend(s: System, e: Node, c: ChanId, p: Payload): System {
    var ep := Ep(s, e);
    if HasHandles(s, e, c) && MaySend(ep.handles[c], p) then
      With(s, e, AddEvent(ep, PayloadEvent(p, KeyOf(s.chans, e, c).value, KeyOf(s.chans, Peer(e), c).value, c)))
    else s
  }

  function DoClose(s: System, e: Node, c: ChanId): System {
    var ep := Ep(s, e);
    if HasHandles(s, e, c) && ep.handles[c].receiver == Live && !ep.handles[c].closed then
      With(s, e, AddEvent(ep.(handles := ep.handles[c := ep.handles[c].(closed := true)]),
                          ReceiverClosed(KeyOf(s.chans, e, c).value, c)))
    else s
  }

  function SetHandles(s: System, e: Node, c: ChanId, h: Handles): System {
    With(s, e, Ep(s, e).(handles := Ep(s, e).handles[c := h]))
  }

  function DoQueueSenderDropped(s: System, e: Node, c: ChanId): System {
    var ep := Ep(s, e);
    if HasHandles(s, e, c) && ep.handles[c].sender == DropSpawned then
      With(s, e, AddEvent(ep.(handles := ep.handles[c := ep.handles[c].(sender := DropQueued)]),
                          SenderDropped(KeyOf(s.chans, e, c).value, c)))
    else s
  }

  function DoQueueReceiverDropped(s: System, e: Node, c: ChanId): System {
    var ep := Ep(s, e);
    if HasHandles(s, e, c) && ep.handles[c].receiver == DropSpawned then
      With(s, e, AddEvent(ep.(handles := ep.handles[c := ep.handles[c].(receiver := DropQueued)]),
                          ReceiverDropped(KeyOf(s.chans, e, c).value, c)))
    else s
  }

  function DoHandleNext(s: System, e: Node): System {
    var ep := Ep(s, e);
    if ep.events == [] then s
    else
      match HandleEvent(ep.mux, ep.events[0])
      case Panicked => Fail(s)
      case Sent(m, msg) =>
        With(s, e, ep.(mux := m, events := ep.events[1..], out := ep.out.(normal := ep.out.normal + [msg])))
  }

  function DoHandleHigh(s: System, e: Node): System {
    var ep := Ep(s, e);
    if ep.highEvents == [] then s
    else
      var evt := ep.highEvents[0];
      match HandleEvent(ep.mux, evt)
      case Panicked => Fail(s)
      case Sent(m, msg) =>
        With(s, e, ep.(mux := m,
                       highEvents := ep.highEvents[1..],
                       handles := if evt.AcceptedReq? then ep.handles[evt.chan := LIVE] else ep.handles,
                       out := ep.out.(high := ep.out.high + [msg])))
  }

  /** The send task takes from the high-priority queue whenever it holds something. */
  function Transmitted(o: Out): Out {
    if o.high != [] then Out(o.wire + [o.high[0]], o.high[1..], o.normal)
    else if o.normal != [] then Out(o.wire + [o.normal[0]], [], o.normal[1..])
    else o
  }

  function DoDeliver(s: System, e: Node): System {
    var from := Ep(s, Peer(e));
    if from.out.wire == [] then s
    else
      var ep := Ep(s, e);
      var msg := from.out.wire[0];
      match HandleReceived(ep.mux, msg)
      case Failed => Fail(s)
      case Done(m) =>
        With(With(s, Peer(e), from.(out := from.out.(wire := from.out.wire[1..]))),
             e, ep.(mux := m,
                    requests := if msg.OpenPort? then ep.requests[msg.chan := Waiting] else ep.requests,
                    handles := if msg.PortOpened? then ep.handles[msg.chan := LIVE] else ep.handles))
  }

  function Next(s: System, step: Step): System {
    if s.failed then s
    else
      match step
      case Allocate(e, n) =>
        var ep := Ep(s, e);
        if n in ep.mux.localUsed then s
        else With(s, e, ep.(held := ep.held + {n}, mux := ep.mux.(localUsed := ep.mux.localUsed + {n})))
      case Release(e, n) =>
        var ep := Ep(s, e);
        if n !in ep.held then s
        else With(s, e, ep.(held := ep.held - {n}, mux := ep.mux.(localUsed := ep.mux.localUsed - {n})))
      case Connect(e, n) => DoConnect(s, e, n)
      case Accept(e, c, key) => DoAccept(s, e, c, key)
      case DropRequest(e, c) =>
        var ep := Ep(s, e);
        if c in ep.requests && ep.requests[c] == Waiting
        then With(s, e, ep.(requests := ep.requests[c := RejectSpawned])) else s
      case QueueReject(e, c, noPorts) => DoQueueReject(s, e, c, noPorts)
      case Send(e, c, p) => DoSend(s, e, c, p)
      case CloseReceiver(e, c) => DoClose(s, e, c)
      case DropSender(e, c) =>
        if HasHandles(s, e, c) && Ep(s, e).handles[c].sender == Live
        then SetHandles(s, e, c, Ep(s, e).handles[c].(sender := DropSpawned)) else s
      case QueueSenderDropped(e, c) => DoQueueSenderDropped(s, e, c)
      case DropReceiver(e, c) =>
        if HasHandles(s, e, c) && Ep(s, e).handles[c].receiver == Live
        then SetHandles(s, e, c, Ep(s, e).handles[c].(receiver := DropSpawned)) else s
      case QueueReceiverDropped(e, c) => DoQueueReceiverDropped(s, e, c)
      case QueueNote(e, c, n) =>
        var ep := Ep(s, e);
        if HasHandles(s, e, c)
        then With(s, e, ep.(highEvents := ep.highEvents + [NoteEvent(n, KeyOf(s.chans, Peer(e), c).value, c)]))
        else s
      case HandleNext(e) => DoHandleNext(s, e)
      case HandleHigh(e) => DoHandleHigh(s, e)
      case Transmit(e) => With(s, e, Ep(s, e).(out := Transmitted(Ep(s, e).out)))
      case Deliver(e) => DoDeliver(s, e)
  }

  function Run(steps: seq<Step>): System {
    if steps == [] then INIT else Next(Run(steps[..|steps| - 1]), steps[|steps| - 1])
  }

  // ---------------------------------------------------------------------------
  // Cutting one channel out of the system.
  // ---------------------------------------------------------------------------

  function MsgsFor(q: seq<Msg>, c: ChanId): seq<Kind> {
    if q == [] then []
    else (if q[0].chan == c then [KindOf(q[0])] else []) + MsgsFor(q[1..], c)
  }

  function EventsFor(q: seq<PortEvt>, c: ChanId): seq<Kind> {
    if q == [] then []
    else (if q[0].chan == c then [EventKind(q[0])] else []) + EventsFor(q[1..], c)
  }

  function Find<K, V>(m: map<K, V>, k: K): Option<V> {
    if k in m then Some(m[k]) else None
  }

  function PortFor(m: Mux, key: Option<SidePort>, c: ChanId): Option<Port> {
    if key.Some? && key.value in m.ports && m.ports[key.value].chan == c then Some(m.ports[key.value]) else None
  }

  function SideOf(chans: seq<Chan>, ep: Endpoint, e: Node, c: ChanId): Side
    requires c < |chans|
  {
    Side(PortFor(ep.mux, KeyOf(chans, e, c), c), Find(ep.handles, c),
         EventsFor(ep.events, c), EventsFor(ep.highEvents, c), Find(ep.requests, c))
  }

  function LaneOf(o: Out, c: ChanId): Lane {
    Lane(MsgsFor(o.Ordered(), c), MsgsFor(o.normal, c))
  }

  function ViewOf(s: System, c: ChanId): View
    requires c < |s.chans|
  {
    var e := s.chans[c].client;
    View(SideOf(s.chans, Ep(s, e), e, c), SideOf(s.chans, Ep(s, Peer(e)), Peer(e), c),
         LaneOf(Ep(s, e).out, c), LaneOf(Ep(s, Peer(e)).out, c))
  }

  lemma {:induction false} MsgsForConcat(p: seq<Msg>, q: seq<Msg>, c: ChanId)
    ensures MsgsFor(p + q, c) == MsgsFor(p, c) + MsgsFor(q, c)
  {
    if p == [] {
      assert p + q == q;
    } else {
      assert (p + q)[1..] == p[1..] + q && (p + q)[0] == p[0];
      MsgsForConcat(p[1..], q, c);
      var head := if p[0].chan == c then [KindOf(p[0])] else [];
      hide KindOf;
      assert MsgsFor(p + q, c) == head + MsgsFor(p[1..] + q, c);
      assert MsgsFor(p, c) == head + MsgsFor(p[1..], c);
      assert head + (MsgsFor(p[1..], c) + MsgsFor(q, c)) == (head + MsgsFor(p[1..], c)) + MsgsFor(q, c);
    }
  }

  lemma {:induction false} EventsForConcat(p: seq<PortEvt>, q: seq<PortEvt>, c: ChanId)
    ensures EventsFor(p + q, c) == EventsFor(p, c) + EventsFor(q, c)
  {
    if p == [] {
      assert p + q == q;
    } else {
      assert (p + q)[1..] == p[1..] + q && (p + q)[0] == p[0];
      EventsForConcat(p[1..], q, c);
      var head := if p[0].chan == c then [EventKind(p[0])] else [];
      hide EventKind;
      assert EventsFor(p + q, c) == head + EventsFor(p[1..] + q, c);
      assert EventsFor(p, c) == head + EventsFor(p[1..], c);
      assert head + (EventsFor(p[1..], c) + EventsFor(q, c)) == (head + EventsFor(p[1..], c)) + EventsFor(q, c);
    }
  }

  lemma {:induction false} EventsForAbsent(q: seq<PortEvt>, c: ChanId)
    requires forall i | 0 <= i < |q| :: q[i].chan != c
    ensures EventsFor(q, c) == []
  {
    if q != [] {
      EventsForAbsent(q[1..], c);
    }
  }

  lemma {:induction false} MsgsForAbsent(q: seq<Msg>, c: ChanId)
    requires forall i | 0 <= i < |q| :: q[i].chan != c
    ensures MsgsFor(q, c) == []
  {
    if q != [] {
      MsgsForAbsent(q[1..], c);
    }
  }
}
