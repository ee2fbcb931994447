/**
 One incarnation of a channel, cut out of the whole system: both port table entries, the
 application handles, the queued events and the messages under way in both directions.

 The invariant is a replay: feeding the messages under way to what the receiving entry
 records must succeed and end exactly at what the sending entry records. The same automaton
 relates an entry to the application's handles through the queued events.
 */
module PortChannel {
  import opened Types
  import opened PortMux

  /** What a message or event means for one channel. */
  datatype Kind =
    | Open       // request
    | Opened     // positive answer
    | Refused    // negative answer
    | Carry      // data, ports or a report request: needs an open receiver
    | Finish     // the sender is gone
    | Close      // the receiver wants no more
    | End        // the receiver is gone
    | Note       // credit and report messages, ignored for unknown ports

  function KindOf(m: Msg): Kind {
    match m
    case OpenPort(_, _) => Open
    case PortOpened(_, _, _) => Opened
    case Rejected(_, _, _) => Refused
    case Data(_, _) => Carry
    case PortData(_, _) => Carry
    case RequestReceivedReport(_, _) => Carry
    case ReceivedReport(_, _) => Note
    case PortCredits(_, _, _) => Note
    case InhibitGlobalCreditUsageByPort(_, _) => Note
    case AllowGlobalCreditUsageByPort(_, _) => Note
    case SendFinish(_, _) => Finish
    case ReceiveClose(_, _) => Close
    case ReceiveFinish(_, _) => End
  }

  function EventKind(e: PortEvt): Kind {
    match e
    case ConnectReq(_, _) => Open
    case SendData(_, _) => Carry
    case SendPorts(_, _) => Carry
    case RequestReport(_, _) => Carry
    case SenderDropped(_, _) => Finish
    case ReceiverClosed(_, _) => Close
    case ReceiverDropped(_, _) => End
    case AcceptedReq(_, _, _) => Opened
    case RejectedReq(_, _, _) => Refused
    case SendReport(_, _) => Note
    case ReturnCredits(_, _, _) => Note
    case ChangeGlobalCreditUsage(_, _, _) => Note
  }

  /** How far one direction of a channel has been shut down. */
  datatype Flow = Flow(open: bool, closed: bool, ended: bool)

  const FRESH := Flow(true, false, false)
  const OVER := Flow(false, true, true)

  function Advance(f: Flow, k: Kind): Option<Flow> {
    match k
    case Note => Some(f)
    case Carry => if f.open then Some(f) else None
    case Finish => if f.open then Some(f.(open := false)) else None
    case Close => if f.closed then None else Some(f.(closed := true))
    case End => if f.ended then None else Some(f.(closed := true, ended := true))
    case _ => None
  }

  function FeedAll(f: Flow, ks: seq<Kind>): Option<Flow>
    decreases ks
  {
    if ks == [] then Some(f)
    else
      match Advance(f, ks[0])
      case None => None
      case Some(f') => FeedAll(f', ks[1..])
  }

  lemma {:induction false} FeedConcat(f: Flow, a: seq<Kind>, b: seq<Kind>)
    ensures FeedAll(f, a + b) ==
            match FeedAll(f, a) { case None => None case Some(g) => FeedAll(g, b) }
    decreases a
  {
    if a == [] {
      assert a + b == b;
    } else {
      assert (a + b)[0] == a[0] && (a + b)[1..] == a[1..] + b;
      match Advance(f, a[0])
      case None =>
      case Some(g) => FeedConcat(g, a[1..], b);
    }
  }

  lemma FeedAppend(f: Flow, ks: seq<Kind>, k: Kind, g: Flow)
    requires FeedAll(f, ks) == Some(g)
    ensures FeedAll(f, ks + [k]) == Advance(g, k)
  {
    FeedConcat(f, ks, [k]);
    match Advance(g, k)
    case None =>
    case Some(h) => assert FeedAll(h, [k][1..]) == Some(h);
  }

  /** A note may be slipped in anywhere. */
  lemma FeedNote(f: Flow, a: seq<Kind>, b: seq<Kind>)
    ensures FeedAll(f, a + [Note] + b) == FeedAll(f, a + b)
  {
    FeedConcat(f, a + [Note], b);
    FeedConcat(f, a, b);
    match FeedAll(f, a)
    case None => FeedConcat(f, a, [Note]);
    case Some(g) => FeedAppend(f, a, Note, g);
  }

  /** After the end of a direction only notes can follow. */
  lemma {:induction false} OverMeansNotes(ks: seq<Kind>)
    requires FeedAll(OVER, ks).Some?
    ensures FeedAll(OVER, ks) == Some(OVER)
    ensures forall i | 0 <= i < |ks| :: ks[i] == Note
  {
    if ks != [] {
      OverMeansNotes(ks[1..]);
    }
  }

  /** Life of a Sender or Receiver: dropping it spawns a task that queues an event. */
  datatype Handle = Live | DropSpawned | DropQueued

  datatype Handles = Handles(sender: Handle, receiver: Handle, closed: bool)

  /** Life of a connection request until its answer is queued. */
  datatype Request = Waiting | RejectSpawned

  /** What one endpoint holds for the channel. */
  datatype Side = Side(
    port: Option<Port>,
    handles: Option<Handles>,
    events: seq<Kind>,
    high: seq<Kind>,
    request: Option<Request>)

  /** Messages under way: those already ordered on the wire, then the normal send queue. */
  datatype Lane = Lane(ordered: seq<Kind>, normal: seq<Kind>) {
    function All(): seq<Kind> {
      ordered + normal
    }
  }

  datatype View = View(client: Side, server: Side, up: Lane, down: Lane)

  const NOTHING := Side(None, None, [], [], None)

  /** What the entry has recorded about messages received from the peer. */
  function RecvFlow(p: Option<Port>): Flow {
    if p.Some? && p.value.Connected?
    then Flow(p.value.receiverOpen, p.value.remoteReceiverClosed, p.value.remoteReceiverDropped)
    else OVER
  }

  /** What the entry has recorded about messages sent to the peer. */
  function SendFlow(p: Option<Port>): Flow {
    if p.Some? && p.value.Connected?
    then Flow(!p.value.senderDropped, p.value.receiverClosed || p.value.receiverDropped, p.value.receiverDropped)
    else OVER
  }

  function AppFlow(h: Handles): Flow {
    Flow(h.sender != DropQueued, h.closed || h.receiver == DropQueued, h.receiver == DropQueued)
  }

  predicate AllNotes(ks: seq<Kind>) {
    forall i | 0 <= i < |ks| :: ks[i] == Note
  }

  /** The entry has seen the end of the peer's receiver only together with its close. */
  predicate EntryOk(p: Option<Port>) {
    p.Some? ==>
      && p.value.Connected? && !Finished(p.value)
      && (p.value.remoteReceiverDropped ==> p.value.remoteReceiverClosed)
  }

  /** An established side: its queued events lead from the table entry to the handles. */
  predicate Established(s: Side) {
    && EntryOk(s.port)
    && s.handles.Some?
    && s.request.None?
    && Note !in s.events
    && AllNotes(s.high)
    && FeedAll(SendFlow(s.port), s.events) == Some(AppFlow(s.handles.value))
  }

  predicate AwaitsAnswer(s: Side) {
    s.port.Some? && s.port.value.Connecting? && s == NOTHING.(port := s.port)
  }

  // The phases of a channel.

  predicate Opening(v: View) {
    AwaitsAnswer(v.client) && v.server == NOTHING && v.up.All() == [Open] && v.down.All() == []
  }

  predicate Requested(v: View) {
    && AwaitsAnswer(v.client) && v.up.All() == [] && v.down.All() == []
    && v.server == NOTHING.(high := v.server.high, request := v.server.request)
    && (v.server.request.Some? <==> v.server.high == [])
    && (v.server.high == [] || v.server.high == [Opened] || v.server.high == [Refused])
  }

  predicate Refusing(v: View) {
    AwaitsAnswer(v.client) && v.server == NOTHING && v.up.All() == [] && v.down.All() == [Refused]
  }

  predicate Answered(v: View) {
    && AwaitsAnswer(v.client) && Established(v.server) && v.up.All() == []
    && RecvFlow(v.server.port) == FRESH
    && v.down.ordered != [] && v.down.ordered[0] == Opened
    && FeedAll(FRESH, v.down.ordered[1..] + v.down.normal) == Some(SendFlow(v.server.port))
  }

  predicate Linked(v: View) {
    && Established(v.client) && Established(v.server)
    && FeedAll(RecvFlow(v.server.port), v.up.All()) == Some(SendFlow(v.client.port))
    && FeedAll(RecvFlow(v.client.port), v.down.All()) == Some(SendFlow(v.server.port))
  }

  predicate Gone(v: View) {
    v.client == NOTHING && v.server == NOTHING && v.up.All() == [] && v.down.All() == []
  }

  predicate ChannelOk(v: View) {
    Opening(v) || Requested(v) || Refusing(v) || Answered(v) || Linked(v) || Gone(v)
  }

  // ---------------------------------------------------------------------------
  // What handling one event or message does to a table entry.
  // ---------------------------------------------------------------------------

  function Freed(p: Port): Option<Port> {
    if Finished(p) then None else Some(p)
  }

  function AfterEvent(p: Port, k: Kind): Option<Port>
    requires p.Connected?
  {
    match k
    case Finish => Freed(p.(senderDropped := true))
    case Close => Some(p.(receiverClosed := true))
    case End => Freed(p.(receiverDropped := true))
    case _ => Some(p)
  }

  function AfterMsg(p: Port, k: Kind): Option<Port>
    requires p.Connected?
  {
    match k
    case Finish => Freed(p.(receiverOpen := false))
    case Close => Freed(p.(remoteReceiverClosed := true))
    case End => Freed(p.(remoteReceiverClosed := true, remoteReceiverDropped := true))
    case _ => Some(p)
  }

  /** The first queued event of an established side never meets a panic. */
  lemma EventStep(s: Side)
    requires Established(s) && s.events != []
    ensures s.port.Some? && s.events[0] in {Carry, Finish, Close, End}
    ensures s.events[0] != End && s.events[0] != Close ==> !s.port.value.senderDropped
    ensures s.events[0] == Close ==> !s.port.value.receiverClosed
    ensures s.events[0] == Close || s.events[0] == End ==> !s.port.value.receiverDropped
    ensures var p' := AfterEvent(s.port.value, s.events[0]);
            && Established(s.(port := p', events := s.events[1..]))
            && Advance(SendFlow(s.port), s.events[0]) == Some(SendFlow(p'))
            && RecvFlow(p') == RecvFlow(s.port)
  {
    assert s.events[0] in s.events;
    assert forall k | k in s.events[1..] :: k in s.events;
  }

  /** A message the replay accepts finds a live entry, and the rest still replays. */
  lemma MsgStep(s: Side, k: Kind, rest: seq<Kind>, g: Flow)
    requires Established(s) && k != Note
    requires FeedAll(RecvFlow(s.port), [k] + rest) == Some(g)
    ensures s.port.Some? && k in {Carry, Finish, Close, End}
    ensures k == Carry || k == Finish ==> s.port.value.receiverOpen
    ensures k == Close ==> !s.port.value.remoteReceiverClosed
    ensures var p' := AfterMsg(s.port.value, k);
            && Established(s.(port := p'))
            && SendFlow(p') == SendFlow(s.port)
            && FeedAll(RecvFlow(p'), rest) == Some(g)
  {
    assert ([k] + rest)[0] == k && ([k] + rest)[1..] == rest;
  }

  /** The event just handled becomes the last message of the normal lane. */
  lemma LaneAppend(f: Flow, lane: Lane, k: Kind, g: Flow)
    requires FeedAll(f, lane.All()) == Some(g)
    ensures FeedAll(f, lane.(normal := lane.normal + [k]).All()) == Advance(g, k)
  {
    FeedAppend(f, lane.All(), k, g);
    assert lane.(normal := lane.normal + [k]).All() == lane.All() + [k];
  }

  lemma LaneNote(f: Flow, lane: Lane)
    ensures FeedAll(f, lane.(ordered := lane.ordered + [Note]).All()) == FeedAll(f, lane.All())
  {
    FeedNote(f, lane.ordered, lane.normal);
  }

  // ---------------------------------------------------------------------------
  // Steps of a whole channel, seen from one side.
  // ---------------------------------------------------------------------------

  function Mine(v: View, asClient: bool): Side {
    if asClient then v.client else v.server
  }

  function OutLane(v: View, asClient: bool): Lane {
    if asClient then v.up else v.down
  }

  function InLane(v: View, asClient: bool): Lane {
    OutLane(v, !asClient)
  }

  function Put(v: View, asClient: bool, mine: Side, out: Lane): View {
    if asClient then v.(client := mine, up := out) else v.(server := mine, down := out)
  }

  function Take(v: View, asClient: bool, mine: Side): View {
    var lane := InLane(v, asClient);
    var rest := if lane.ordered == [] then lane else lane.(ordered := lane.ordered[1..]);
    if asClient then v.(client := mine, down := rest) else v.(server := mine, up := rest)
  }

  /** Handles exist exactly on established sides. */
  lemma HandlesMeanEstablished(v: View, asClient: bool)
    requires ChannelOk(v) && Mine(v, asClient).handles.Some?
    ensures Established(Mine(v, asClient))
    ensures Linked(v) || (Answered(v) && !asClient)
  {
  }

  /** Events wait only on established sides. */
  lemma EventsMeanEstablished(v: View, asClient: bool)
    requires ChannelOk(v) && Mine(v, asClient).events != []
    ensures Mine(v, asClient).handles.Some?
  {
  }

  /** Application steps change only handles and queued events. */
  lemma AppStep(v: View, asClient: bool, mine: Side)
    requires ChannelOk(v) && Mine(v, asClient).handles.Some?
    requires Established(mine) && mine.port == Mine(v, asClient).port
    ensures Linked(v) ==> Linked(Put(v, asClient, mine, OutLane(v, asClient)))
    ensures !Linked(v) ==> Answered(Put(v, asClient, mine, OutLane(v, asClient)))
  {
    HandlesMeanEstablished(v, asClient);
  }

  /** Handling the first queued event sends the matching message. */
  lemma HandleStep(v: View, asClient: bool, k: Kind, p': Option<Port>)
    requires ChannelOk(v) && Mine(v, asClient).events != [] && k == Mine(v, asClient).events[0]
    requires Mine(v, asClient).port.Some? && Mine(v, asClient).port.value.Connected?
    requires p' == AfterEvent(Mine(v, asClient).port.value, k)
    ensures var mine := Mine(v, asClient);
            var out := OutLane(v, asClient);
            var v' := Put(v, asClient, mine.(port := p', events := mine.events[1..]), out.(normal := out.normal + [k]));
            if Linked(v) then Linked(v') else Answered(v) && Answered(v')
  {
    EventsMeanEstablished(v, asClient);
    HandlesMeanEstablished(v, asClient);
    var mine, out := Mine(v, asClient), OutLane(v, asClient);
    EventStep(mine);
    if Linked(v) {
      LaneAppend(RecvFlow(Mine(v, !asClient).port), out, k, SendFlow(mine.port));
    } else {
      LaneAppend(FRESH, Lane(out.ordered[1..], out.normal), k, SendFlow(mine.port));
      assert out.ordered[1..] + (out.normal + [k]) == Lane(out.ordered[1..], out.normal + [k]).All();
    }
  }

  /** Handling a queued note sends it ahead of the normal queue. */
  lemma NoteStep(v: View, asClient: bool)
    requires ChannelOk(v) && Mine(v, asClient).high != [] && Mine(v, asClient).high[0] == Note
    ensures var mine := Mine(v, asClient);
            var out := OutLane(v, asClient);
            var v' := Put(v, asClient, mine.(high := mine.high[1..]), out.(ordered := out.ordered + [Note]));
            if Linked(v) then Linked(v') else Answered(v) && Answered(v')
  {
    var mine, out := Mine(v, asClient), OutLane(v, asClient);
    assert Linked(v) || Answered(v);
    if Linked(v) {
      LaneNote(RecvFlow(Mine(v, !asClient).port), out);
    } else {
      LaneNote(FRESH, Lane(out.ordered[1..], out.normal));
      assert (out.ordered + [Note])[1..] == out.ordered[1..] + [Note];
      assert !asClient;
    }
  }

  /** Which phase a channel is in when a message of a given kind arrives. */
  lemma ArrivalPhase(v: View, asClient: bool)
    requires ChannelOk(v) && InLane(v, asClient).ordered != []
    ensures var k := InLane(v, asClient).ordered[0];
            && (k == Open ==> Opening(v) && !asClient)
            && (k == Opened ==> Answered(v) && asClient)
            && (k == Refused ==> Refusing(v) && asClient)
            && (k !in {Open, Opened, Refused} ==> Linked(v))
  {
    var lane := InLane(v, asClient);
    assert lane.All()[0] == lane.ordered[0];
    if Linked(v) {
      assert lane.All() != [];
    }
  }

  lemma ReceiveOpen(v: View)
    requires Opening(v) && v.up.ordered != []
    ensures Requested(Take(v, false, v.server.(request := Some(Waiting))))
  {
    assert v.up.All()[0] == v.up.ordered[0] && |v.up.All()| == 1;
  }

  lemma ReceiveRefused(v: View)
    requires Refusing(v) && v.down.ordered != []
    ensures Gone(Take(v, true, v.client.(port := None)))
  {
    assert v.down.All()[0] == v.down.ordered[0] && |v.down.All()| == 1;
  }

  lemma ReceiveOpened(v: View, p: Port)
    requires Answered(v)
    requires p.Connected? && p == FreshPort(p.chan, p.remotePort)
    ensures Linked(Take(v, true, v.client.(port := Some(p), handles := Some(Handles(Live, Live, false)))))
  {
  }

  lemma ReceiveNote(v: View, asClient: bool)
    requires Linked(v) && InLane(v, asClient).ordered != [] && InLane(v, asClient).ordered[0] == Note
    ensures Linked(Take(v, asClient, Mine(v, asClient)))
  {
    var lane := InLane(v, asClient);
    assert lane.All()[0] == Note && lane.All()[1..] == lane.ordered[1..] + lane.normal;
  }

  /** A data or shutdown message finds its entry alive and advances it. */
  lemma ReceiveFlow(v: View, asClient: bool)
    requires Linked(v) && InLane(v, asClient).ordered != []
    requires InLane(v, asClient).ordered[0] !in {Note, Open, Opened, Refused}
    ensures var k := InLane(v, asClient).ordered[0];
            var mine := Mine(v, asClient);
            && mine.port.Some?
            && (k == Carry || k == Finish ==> mine.port.value.receiverOpen)
            && (k == Close ==> !mine.port.value.remoteReceiverClosed)
            && Linked(Take(v, asClient, mine.(port := AfterMsg(mine.port.value, k))))
  {
    var lane := InLane(v, asClient);
    var rest := lane.(ordered := lane.ordered[1..]);
    assert lane.All() == [lane.ordered[0]] + rest.All();
    MsgStep(Mine(v, asClient), lane.ordered[0], rest.All(), SendFlow(Mine(v, !asClient).port));
  }

  /** Once the requester has left and nothing but notes is under way to the peer, the peer has left too. */
  lemma BothLeft(v: View)
    requires ChannelOk(v) && v.client.port.None? && AllNotes(v.up.All())
    ensures v.server.port.None?
  {
    if Linked(v) {
      NotesChangeNothing(RecvFlow(v.server.port), v.up.All());
      OverMeansNotes(v.down.All());
      assert SendFlow(v.server.port) == OVER && RecvFlow(v.server.port) == OVER;
    }
  }

  lemma {:induction false} NotesChangeNothing(f: Flow, ks: seq<Kind>)
    requires AllNotes(ks)
    ensures FeedAll(f, ks) == Some(f)
  {
    if ks != [] {
      NotesChangeNothing(f, ks[1..]);
    }
  }

  /** Which phase a channel is in when a high-priority event of a given kind is handled. */
  lemma HighPhase(v: View, asClient: bool)
    requires ChannelOk(v) && Mine(v, asClient).high != []
    ensures var k := Mine(v, asClient).high[0];
            && k in {Note, Opened, Refused}
            && (k == Note ==> Linked(v) || Answered(v))
            && (k != Note ==> Requested(v) && !asClient && v.server.high == [k])
  {
    assert Mine(v, asClient).high[0] in Mine(v, asClient).high;
  }

  lemma AcceptStep(v: View, p: Port)
    requires Requested(v) && v.server.high == [Opened]
    requires p.Connected? && p == FreshPort(p.chan, p.remotePort)
    ensures Answered(Put(v, false,
            v.server.(port := Some(p), handles := Some(Handles(Live, Live, false)), high := v.server.high[1..]),
                         v.down.(ordered := v.down.ordered + [Opened])))
  {
    assert |v.down.All()| == 0;
    assert (v.down.ordered + [Opened])[1..] + v.down.normal == [];
  }

  lemma RefuseStep(v: View)
    requires Requested(v) && v.server.high == [Refused]
    ensures Refusing(Put(v, false, v.server.(high := v.server.high[1..]),
            v.down.(ordered := v.down.ordered + [Refused])))
  {
    assert |v.down.All()| == 0;
  }
}
