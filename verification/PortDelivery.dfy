/** Messages taken from the wire keep the invariant. */
module PortDelivery {
  import opened Types
  import opened PortMux
  import opened PortChannel
  import opened PortSystem
  import opened PortInvariant
  import opened PortBooks
  import opened PortSafety
  import opened PortSteps

  function Popped(o: Out): Out
    requires o.wire != []
  {
    o.(wire := o.wire[1..])
  }

  lemma PoppedLane(o: Out, d: ChanId)
    requires o.wire != []
    ensures d != o.wire[0].chan ==> LaneOf(Popped(o), d) == LaneOf(o, d)
    ensures d == o.wire[0].chan ==>
              LaneOf(o, d).ordered != [] && LaneOf(o, d).ordered[0] == KindOf(o.wire[0])
    ensures d == o.wire[0].chan ==>
              LaneOf(Popped(o), d) == LaneOf(o, d).(ordered := LaneOf(o, d).ordered[1..])
  {
    assert o.Ordered()[0] == o.wire[0] && o.Ordered()[1..] == Popped(o).Ordered();
  }

  lemma PoppedOut(chans: seq<Chan>, e: Node, o: Out)
    requires o.wire != [] && MsgsOk(chans, e, o.All()) && WireOrdered(chans, o.All())
    ensures MsgOk(chans, e, o.wire[0])
    ensures MsgsOk(chans, e, Popped(o).All()) && WireOrdered(chans, Popped(o).All())
  {
    var q, q' := o.All(), Popped(o).All();
    assert q[0] == o.wire[0] && q' == q[1..];
    forall i, j | 0 <= i < j < |q'| && q'[i].OpenPort? && Older(chans, q'[j].chan, q'[i].chan)
      ensures KindOf(q'[j]) == Note
    {
      assert q[i + 1].OpenPort? && Older(chans, q[j + 1].chan, q[i + 1].chan);
    }
  }

  /** The state after endpoint e has taken a message off the wire. */
  function Delivered(s: System, e: Node, m: Mux, reqs: map<ChanId, Request>, hs: map<ChanId, Handles>): System
    requires Ep(s, Peer(e)).out.wire != []
  {
    var from := Ep(s, Peer(e));
    With(With(s, Peer(e), from.(out := Popped(from.out))), e, Ep(s, e).(mux := m, requests := reqs, handles := hs))
  }

  /** Only the channel of the message changes, on the receiving side. */
  lemma DeliveredViews(s: System, s': System, e: Node, c: ChanId, m: Mux, reqs: map<ChanId, Request>,
          hs: map<ChanId, Handles>)
    requires Ep(s, Peer(e)).out.wire != [] && Ep(s, Peer(e)).out.wire[0].chan == c < |s.chans|
    requires s' == Delivered(s, e, m, reqs, hs)
    requires forall d: ChanId | d < |s.chans| && d != c ::
            PortFor(m, KeyOf(s.chans, e, d), d) == PortFor(Ep(s, e).mux, KeyOf(s.chans, e, d), d)
    requires forall d: ChanId | d != c ::
            Find(hs, d) == Find(Ep(s, e).handles, d) && Find(reqs, d) == Find(Ep(s, e).requests, d)
    ensures OthersSame(s, s', c)
    ensures var v, asClient := ViewOf(s, c), s.chans[c].client == e;
            var mine := Mine(v, asClient);
            && mine == SideOf(s.chans, Ep(s, e), e, c)
            && InLane(v, asClient).ordered != [] && InLane(v, asClient).ordered[0] == KindOf(Ep(s, Peer(e)).out.wire[0])
            && ViewOf(s', c) == Take(v, asClient,
                 mine.(port := PortFor(m, KeyOf(s.chans, e, c), c), handles := Find(hs, c), request := Find(reqs, c)))
  {
    hide EventsFor, MsgsFor, KindOf, PortFor, Find, LaneOf;
    PoppedLane(Ep(s, Peer(e)).out, c);
    forall d: ChanId | d < |s.chans| && d != c
      ensures ViewOf(s', d) == ViewOf(s, d)
    {
      PoppedLane(Ep(s, Peer(e)).out, d);
    }
  }

  /** What the peer keeps when a message leaves its wire. */
  lemma PeerPopped(s: System, p: Node, c: ChanId, y: Status)
    requires NodeOk(s, p) && c < |s.chans| && Ep(s, p).out.wire != []
    requires s.chans[c].client == p || (y.asked == Stats(s)[c].asked && y.pending == Stats(s)[c].pending)
    ensures LocalOk(s.chans, Stats(s)[c := y], p, Ep(s, p).(out := Popped(Ep(s, p).out)))
  {
    hide BooksOk, MsgsOk, WireOrdered, EventsOk, PortsOk, HandlesOk, RequestsOk, Stats;
    PeerUntouched(s, p, c, y);
    PoppedOut(s.chans, p, Ep(s, p).out);
  }

  /** A note changes nothing. */
  lemma DeliverNote(s: System, e: Node)
    requires Inv(s) && Ep(s, Peer(e)).out.wire != [] && KindOf(Ep(s, Peer(e)).out.wire[0]) == Note
    ensures Inv(DoDeliver(s, e))
  {
    hide BooksOk, WireOrdered, Succession, ServerKeysOk, ChannelOk, StatusOf, MsgsOk, PortsOk, EventsOk, HandlesOk,
      RequestsOk, Stats, Linked, Answered, Opening, Refusing, Requested, EventsFor, MsgsFor, LaneOf, PortFor, Find;
    var ep, msg := Ep(s, e), Ep(s, Peer(e)).out.wire[0];
    var c := msg.chan;
    assert NodeOk(s, e) && NodeOk(s, Peer(e));
    PoppedOut(s.chans, Peer(e), Ep(s, Peer(e)).out);
    var s' := DoDeliver(s, e);
    assert s' == Delivered(s, e, ep.mux, ep.requests, ep.handles);
    DeliveredViews(s, s', e, c, ep.mux, ep.requests, ep.handles);
    var v, asClient := ViewOf(s, c), s.chans[c].client == e;
    ArrivalPhase(v, asClient);
    ReceiveNote(v, asClient);
    EventStatus(v, ViewOf(s', c));
    NoteStatus(v, asClient);
    var y := StatusOf(ViewOf(s', c));
    StatsAt(s, c);
    PeerPopped(s, Peer(e), c, y);
    PeerUntouched(s, e, c, y);
    Conclude(s, s', c);
  }

  lemma NoteStatus(v: View, asClient: bool)
    requires Linked(v) && Linked(Take(v, asClient, Mine(v, asClient)))
    ensures StatusOf(Take(v, asClient, Mine(v, asClient))) == StatusOf(v)
  {
    SettledStatus(v);
    SettledStatus(Take(v, asClient, Mine(v, asClient)));
  }

  /** Data and shutdown messages find their entry alive. */
  lemma DeliverFlow(s: System, e: Node)
    requires Inv(s) && Ep(s, Peer(e)).out.wire != []
            && KindOf(Ep(s, Peer(e)).out.wire[0]) in {Carry, Finish, Close, End}
    ensures Inv(DoDeliver(s, e))
  {
    hide BooksOk, WireOrdered, Succession, ServerKeysOk, ChannelOk, StatusOf, MsgsOk, EventsOk, HandlesOk, RequestsOk,
      PortsOk, Stats, Linked, Answered, Opening, Refusing, Requested, EventsFor, MsgsFor, LaneOf, PortFor, Find,
      KindOf, AfterMsg, Updated, HandleReceived, MsgOk;
    var ep, msg := Ep(s, e), Ep(s, Peer(e)).out.wire[0];
    var c := msg.chan;
    assert NodeOk(s, e) && NodeOk(s, Peer(e));
    PoppedOut(s.chans, Peer(e), Ep(s, Peer(e)).out);
    var k, p' := FlowReady(s, e);
    MessageEffect(s.chans, e, ep.mux, msg, k);
    assert !msg.OpenPort? && !msg.PortOpened? by { FlowMsg(msg); }
    var m' := Updated(ep.mux, k, p');
    var s' := DoDeliver(s, e);
    assert s' == Delivered(s, e, m', ep.requests, ep.handles);
    EventEntry(ep.mux.ports[k], KindOf(msg));
    forall d: ChanId | d < |s.chans|
      ensures d != c ==> PortFor(m', KeyOf(s.chans, e, d), d) == PortFor(ep.mux, KeyOf(s.chans, e, d), d)
      ensures d == c ==> PortFor(m', KeyOf(s.chans, e, d), d) == p'
    {
      UpdatedLookup(ep.mux, k, p', KeyOf(s.chans, e, d), d);
    }
    DeliveredViews(s, s', e, c, m', ep.requests, ep.handles);
    var v, asClient := ViewOf(s, c), s.chans[c].client == e;
    assert Linked(ViewOf(s', c));
    EventStatus(v, ViewOf(s', c));
    StatusPorts(v, ViewOf(s', c), asClient);
    var y := StatusOf(ViewOf(s', c));
    StatsAt(s, c);
    PeerPopped(s, Peer(e), c, y);
    UpdatedPorts(s.chans, e, ep.mux, k, p');
    UpdatedBooks(s.chans, Stats(s), Stats(s)[c := y], e, ep.mux, ep.held, k, p');
    Conclude(s, s', c);
  }

  lemma FlowMsg(msg: Msg)
    requires KindOf(msg) in {Carry, Finish, Close, End}
    ensures !msg.OpenPort? && !msg.PortOpened?
  {
  }

  /** The entry a data or shutdown message is for, and what becomes of it. */
  lemma FlowReady(s: System, e: Node) returns (k: SidePort, p': Option<Port>)
    requires ChannelsOk(s) && Ep(s, Peer(e)).out.wire != []
            && KindOf(Ep(s, Peer(e)).out.wire[0]) in {Carry, Finish, Close, End}
    requires MsgOk(s.chans, Peer(e), Ep(s, Peer(e)).out.wire[0]) && PortsOk(s.chans, e, Ep(s, e).mux.ports)
    ensures var msg, m := Ep(s, Peer(e)).out.wire[0], Ep(s, e).mux;
            && msg.chan < |s.chans|
            && KeyOf(s.chans, e, msg.chan) == Some(k) && k in m.ports && m.ports[k].Connected?
                 && m.ports[k].chan == msg.chan
            && (KindOf(msg) in {Carry, Finish} ==> m.ports[k].receiverOpen)
            && (KindOf(msg) == Close ==> !m.ports[k].remoteReceiverClosed)
            && p' == AfterMsg(m.ports[k], KindOf(msg))
            && var v, asClient := ViewOf(s, msg.chan), s.chans[msg.chan].client == e;
               && Linked(v) && Mine(v, asClient).port == Some(m.ports[k])
               && Linked(Take(v, asClient, Mine(v, asClient).(port := p')))
  {
    hide EventsFor, MsgsFor, Linked;
    var msg := Ep(s, Peer(e)).out.wire[0];
    var c := msg.chan;
    var v, asClient := ViewOf(s, c), s.chans[c].client == e;
    PoppedLane(Ep(s, Peer(e)).out, c);
    assert InLane(v, asClient) == LaneOf(Ep(s, Peer(e)).out, c);
    assert Mine(v, asClient) == SideOf(s.chans, Ep(s, e), e, c);
    ArrivalPhase(v, asClient);
    ReceiveFlow(v, asClient);
    FoundUnderKey(s.chans, e, Ep(s, e), c);
    k := KeyOf(s.chans, e, c).value;
    LinkedPort(v, asClient);
    p' := AfterMsg(Ep(s, e).mux.ports[k], KindOf(msg));
  }

  lemma LinkedPort(v: View, asClient: bool)
    requires Linked(v)
    ensures Mine(v, asClient).port.Some? ==> Mine(v, asClient).port.value.Connected?
  {
  }

  // ---------------------------------------------------------------------------
  // Requests and answers
  // ---------------------------------------------------------------------------

  lemma OpeningStatus(v: View)
    requires Opening(v)
    ensures var x := StatusOf(v); x.opening && x.clientPort && !x.asked && !x.pending && !x.serverPort
  {
    assert |v.up.All()| == 1;
  }

  /** A number asked for is not outstanding: whoever asked for it before has been answered. */
  lemma NotOutstanding(s: System, e: Node, c: ChanId)
    requires Succession(s.chans, Stats(s)) && OutstandingOk(s.chans, Stats(s), e, Ep(s, e).mux.outstanding)
    requires c < |s.chans| && s.chans[c].client == Peer(e) && Opening(ViewOf(s, c))
    ensures s.chans[c].num !in Ep(s, e).mux.outstanding
  {
    OpeningStatus(ViewOf(s, c));
    StatsAt(s, c);
    forall d: ChanId | 0 <= d < |s.chans| && Asked(s.chans, Stats(s), e, d)
      ensures s.chans[d].num != s.chans[c].num
    {
      StatsAt(s, d);
      RequestedStatus(ViewOf(s, d));
      assert d < c && s.chans[d].num == s.chans[c].num ==> Older(s.chans, d, c);
      assert c < d && s.chans[d].num == s.chans[c].num ==> Older(s.chans, c, d);
    }
  }

  /** Behind the request at the head of the wire, an older channel has only notes. */
  lemma {:induction false} OnlyNotesBehind(chans: seq<Chan>, q: seq<Msg>, d: ChanId)
    requires forall j | 0 <= j < |q| && q[j].chan == d :: KindOf(q[j]) == Note
    ensures AllNotes(MsgsFor(q, d))
  {
    if q != [] {
      OnlyNotesBehind(chans, q[1..], d);
    }
  }

  /** When a request for a number arrives, every earlier channel of that number is gone here too. */
  lemma OlderGone(s: System, e: Node, c: ChanId, d: ChanId)
    requires ChannelsOk(s) && Succession(s.chans, Stats(s)) && WireOrdered(s.chans, Ep(s, Peer(e)).out.All())
    requires Ep(s, Peer(e)).out.wire != [] && Ep(s, Peer(e)).out.wire[0].OpenPort?
            && Ep(s, Peer(e)).out.wire[0].chan == c
    requires c < |s.chans| && s.chans[c].client == Peer(e) && Older(s.chans, d, c)
    ensures ViewOf(s, d).server.port.None?
  {
    hide ChannelOk, MsgsFor, SideOf;
    var o := Ep(s, Peer(e)).out;
    var q := o.All();
    assert q[0] == o.wire[0];
    forall j | 0 <= j < |q| && q[j].chan == d
      ensures KindOf(q[j]) == Note
    {
    }
    OnlyNotesBehind(s.chans, q, d);
    MsgsForConcat(o.Ordered(), o.normal, d);
    assert ViewOf(s, d).up.All() == MsgsFor(q, d);
    StatsAt(s, d);
    BothLeft(ViewOf(s, d));
  }

  lemma DeliverOpen(s: System, e: Node)
    requires Inv(s) && Ep(s, Peer(e)).out.wire != [] && Ep(s, Peer(e)).out.wire[0].OpenPort?
    ensures Inv(DoDeliver(s, e))
  {
    hide WireOrdered, Succession, ServerKeysOk, ChannelOk, StatusOf, MsgsOk, EventsOk, HandlesOk, PortsOk, NumbersOk,
      OutstandingOk, Stats, Linked, Answered, Opening, Refusing, Requested, EventsFor, MsgsFor, LaneOf, PortFor,
      KindOf;
    var ep, msg := Ep(s, e), Ep(s, Peer(e)).out.wire[0];
    var c := msg.chan;
    assert NodeOk(s, e) && NodeOk(s, Peer(e));
    PoppedOut(s.chans, Peer(e), Ep(s, Peer(e)).out);
    assert KindOf(msg) == Open by { OpenKind(msg); }
    var m' := ep.mux.(outstanding := ep.mux.outstanding + {s.chans[c].num});
    var reqs := ep.requests[c := Waiting];
    var s' := Delivered(s, e, m', reqs, ep.handles);
    forall d: ChanId | d < |s.chans|
      ensures PortFor(m', KeyOf(s.chans, e, d), d) == PortFor(ep.mux, KeyOf(s.chans, e, d), d)
    {
      PortForOutstanding(ep.mux, ep.mux.outstanding + {s.chans[c].num}, KeyOf(s.chans, e, d), d);
    }
    DeliveredViews(s, s', e, c, m', reqs, ep.handles);
    var v := ViewOf(s, c);
    ArrivalPhase(v, false);
    NotOutstanding(s, e, c);
    assert s' == DoDeliver(s, e);
    ReceiveOpen(v);
    OpeningStatus(v);
    RequestedStatus(ViewOf(s', c));
    RequestedOk(ViewOf(s', c));
    StatsAt(s, c);
    var y := StatusOf(ViewOf(s', c));
    forall d | 0 <= d < c && Older(s.chans, d, c)
      ensures !Stats(s)[d].serverPort
    {
      OlderGone(s, e, c, d);
      StatsAt(s, d);
      assert !StatusOf(ViewOf(s, d)).serverPort by { NoServerPort(ViewOf(s, d)); }
    }
    assert s.chans[c].serverKey.None? by { OpeningKey(s.chans, Stats(s), c); }
    BooksAsk(s.chans, Stats(s), e, ep.mux, ep.held, c, y);
    PeerPopped(s, Peer(e), c, y);
    assert LocalOk(s.chans, Stats(s)[c := y], e, Ep(s', e));
    Conclude(s, s', c);
  }

  lemma OpeningKey(chans: seq<Chan>, st: seq<Status>, c: ChanId)
    requires |st| == |chans| && c < |chans| && Succession(chans, st) && st[c].opening
    ensures chans[c].serverKey.None?
  {
  }

  lemma OpenKind(msg: Msg)
    requires msg.OpenPort?
    ensures KindOf(msg) == Open
  {
  }

  lemma RequestedOk(v: View)
    requires Requested(v)
    ensures ChannelOk(v)
  {
  }

  lemma NoServerPort(v: View)
    requires v.server.port.None?
    ensures !StatusOf(v).serverPort
  {
  }

  /** A waiting requester's entry lies under its local number. */
  lemma AwaitingEntry(s: System, e: Node, c: ChanId)
    requires c < |s.chans| && s.chans[c].client == e && PortsOk(s.chans, e, Ep(s, e).mux.ports)
    requires AwaitsAnswer(ViewOf(s, c).client)
    ensures var k := Local(s.chans[c].num);
            && k in Ep(s, e).mux.ports && Ep(s, e).mux.ports[k] == Connecting(c)
            && KeyOf(s.chans, e, c) == Some(k)
            && ViewOf(s, c).client == NOTHING.(port := Some(Connecting(c)))
            && Find(Ep(s, e).handles, c).None? && Find(Ep(s, e).requests, c).None?
  {
  }

  lemma AnswerKinds(msg: Msg)
    ensures msg.PortOpened? <==> KindOf(msg) == Opened
    ensures msg.Rejected? <==> KindOf(msg) == Refused
    ensures msg.OpenPort? <==> KindOf(msg) == Open
  {
  }

  lemma DeliverRefused(s: System, e: Node)
    requires Inv(s) && Ep(s, Peer(e)).out.wire != [] && Ep(s, Peer(e)).out.wire[0].Rejected?
    ensures Inv(DoDeliver(s, e))
  {
    hide WireOrdered, Succession, ServerKeysOk, ChannelOk, StatusOf, MsgsOk, EventsOk, HandlesOk, PortsOk, RequestsOk,
      BooksOk, Stats, Linked, Answered, Opening, Requested, EventsFor, MsgsFor, LaneOf, PortFor, KindOf, Find,
      Updated;
    var ep, msg := Ep(s, e), Ep(s, Peer(e)).out.wire[0];
    var c := msg.chan;
    assert NodeOk(s, e) && NodeOk(s, Peer(e));
    PoppedOut(s.chans, Peer(e), Ep(s, Peer(e)).out);
    AnswerKinds(msg);
    var k := Local(s.chans[c].num);
    PoppedLane(Ep(s, Peer(e)).out, c);
    var v := ViewOf(s, c);
    ArrivalPhase(v, true);
    AwaitingEntry(s, e, c);
    var m' := RemovePort(ep.mux, k);
    var s' := DoDeliver(s, e);
    assert s' == Delivered(s, e, m', ep.requests, ep.handles);
    forall d: ChanId | d < |s.chans|
      ensures d != c ==> PortFor(m', KeyOf(s.chans, e, d), d) == PortFor(ep.mux, KeyOf(s.chans, e, d), d)
      ensures d == c ==> PortFor(m', KeyOf(s.chans, e, d), d) == None
    {
      RemovedLookup(ep.mux, k, KeyOf(s.chans, e, d), d);
    }
    DeliveredViews(s, s', e, c, m', ep.requests, ep.handles);
    ReceiveRefused(v);
    GoneStatus(ViewOf(s', c));
    RefusingStatus(v);
    var y := StatusOf(ViewOf(s', c));
    StatsAt(s, c);
    PeerPopped(s, Peer(e), c, y);
    RemovedPorts(s.chans, e, ep.mux, k);
    BooksRemovePort(s.chans, Stats(s), Stats(s)[c := y], e, ep.mux, ep.held, k);
    Conclude(s, s', c);
  }

  lemma RemovedPorts(chans: seq<Chan>, e: Node, m: Mux, k: SidePort)
    requires PortsOk(chans, e, m.ports)
    ensures PortsOk(chans, e, RemovePort(m, k).ports)
  {
  }

  lemma RemovedLookup(m: Mux, k: SidePort, key: Option<SidePort>, d: ChanId)
    requires k in m.ports
    ensures d != m.ports[k].chan ==> PortFor(RemovePort(m, k), key, d) == PortFor(m, key, d)
    ensures PortFor(RemovePort(m, k), Some(k), d) == None
  {
  }

  lemma GoneStatus(v: View)
    requires Gone(v)
    ensures ChannelOk(v) && StatusOf(v) == Status(false, false, false, false, false)
  {
    SettledStatus(v);
  }

  lemma RefusingStatus(v: View)
    requires Refusing(v)
    ensures var x := StatusOf(v); !x.opening && !x.asked && !x.pending && x.clientPort && !x.serverPort
  {
    SettledStatus(v);
  }

  lemma DeliverOpened(s: System, e: Node)
    requires Inv(s) && Ep(s, Peer(e)).out.wire != [] && Ep(s, Peer(e)).out.wire[0].PortOpened?
    ensures Inv(DoDeliver(s, e))
  {
    hide WireOrdered, Succession, ServerKeysOk, ChannelOk, StatusOf, MsgsOk, EventsOk, PortsOk, RequestsOk, BooksOk,
         Stats, Linked, Answered, Opening, Requested, Refusing, EventsFor, MsgsFor, LaneOf, PortFor, KindOf;
    var ep, msg := Ep(s, e), Ep(s, Peer(e)).out.wire[0];
    var c := msg.chan;
    assert NodeOk(s, e) && NodeOk(s, Peer(e));
    PoppedOut(s.chans, Peer(e), Ep(s, Peer(e)).out);
    AnswerKinds(msg);
    var k := Local(s.chans[c].num);
    PoppedLane(Ep(s, Peer(e)).out, c);
    var v := ViewOf(s, c);
    ArrivalPhase(v, true);
    AnsweredAwaits(v);
    AwaitingEntry(s, e, c);
    var p := FreshPort(c, msg.serverPort.Flipped());
    var m' := SetPort(ep.mux, k, p);
    var hs := ep.handles[c := LIVE];
    var s' := DoDeliver(s, e);
    assert s' == Delivered(s, e, m', ep.requests, hs);
    forall d: ChanId | d < |s.chans|
      ensures d != c ==> PortFor(m', KeyOf(s.chans, e, d), d) == PortFor(ep.mux, KeyOf(s.chans, e, d), d)
      ensures d == c ==> PortFor(m', KeyOf(s.chans, e, d), d) == Some(p)
    {
      UpdatedLookup(ep.mux, k, Some(p), KeyOf(s.chans, e, d), d);
    }
    DeliveredViews(s, s', e, c, m', ep.requests, hs);
    ReceiveOpened(v, p);
    AnsweredStatus(v, ViewOf(s', c));
    var y := StatusOf(ViewOf(s', c));
    StatsAt(s, c);
    PeerPopped(s, Peer(e), c, y);
    ConnectedPorts(s.chans, e, ep.mux, k, p);
    BooksSetPort(s.chans, Stats(s), Stats(s)[c := y], e, ep.mux, ep.held, k, p);
    Conclude(s, s', c);
  }

  lemma AnsweredAwaits(v: View)
    requires Answered(v)
    ensures AwaitsAnswer(v.client)
  {
  }

  lemma AnsweredStatus(v: View, v': View)
    requires Answered(v) && Linked(v')
    ensures ChannelOk(v')
    ensures var x, y := StatusOf(v), StatusOf(v');
            !x.opening && !x.asked && !x.pending && x.clientPort && !y.opening && !y.asked && !y.pending
  {
    SettledStatus(v);
    SettledStatus(v');
  }

  lemma ConnectedPorts(chans: seq<Chan>, e: Node, m: Mux, k: SidePort, p: Port)
    requires PortsOk(chans, e, m.ports) && PortOk(chans, e, k, p)
    ensures PortsOk(chans, e, SetPort(m, k, p).ports)
  {
  }

  lemma DeliverKeeps(s: System, e: Node)
    requires Inv(s)
    ensures Inv(DoDeliver(s, e))
  {
    hide Inv, DoDeliver;
    if Ep(s, Peer(e)).out.wire != [] {
      var msg := Ep(s, Peer(e)).out.wire[0];
      AnswerKinds(msg);
      match KindOf(msg)
      case Open => DeliverOpen(s, e);
      case Opened => DeliverOpened(s, e);
      case Refused => DeliverRefused(s, e);
      case Note => DeliverNote(s, e);
      case _ => DeliverFlow(s, e);
    } else {
      assert DoDeliver(s, e) == s by { NothingToDeliver(s, e); }
    }
  }

  lemma NothingToDeliver(s: System, e: Node)
    requires Ep(s, Peer(e)).out.wire == []
    ensures DoDeliver(s, e) == s
  {
  }

  // ---------------------------------------------------------------------------
  // Opening and accepting
  // ---------------------------------------------------------------------------

  /** Addresses stay valid when the history of channels grows. */
  ghost predicate Extends(chans: seq<Chan>, chans': seq<Chan>) {
    && |chans| <= |chans'|
    && forall c | 0 <= c < |chans| ::
         && chans'[c].client == chans[c].client && chans'[c].num == chans[c].num
         && (chans[c].serverKey.Some? ==> chans'[c].serverKey == chans[c].serverKey)
  }

  lemma ExtendsMsgs(chans: seq<Chan>, chans': seq<Chan>, e: Node, q: seq<Msg>)
    requires Extends(chans, chans') && MsgsOk(chans, e, q) && WireOrdered(chans, q)
    ensures MsgsOk(chans', e, q) && WireOrdered(chans', q)
  {
    forall i | 0 <= i < |q|
      ensures MsgOk(chans', e, q[i])
    {
      assert MsgOk(chans, e, q[i]);
    }
    forall i, j | 0 <= i < j < |q| && q[i].OpenPort? && Older(chans', q[j].chan, q[i].chan)
      ensures KindOf(q[j]) == Note
    {
      assert MsgOk(chans, e, q[i]) && MsgOk(chans, e, q[j]);
      assert Older(chans, q[j].chan, q[i].chan);
    }
  }

  lemma ExtendsEvents(chans: seq<Chan>, chans': seq<Chan>, e: Node, q: seq<PortEvt>)
    requires Extends(chans, chans') && EventsOk(chans, e, q)
    ensures EventsOk(chans', e, q)
  {
    forall i | 0 <= i < |q|
      ensures EventOk(chans', e, q[i])
    {
      assert EventOk(chans, e, q[i]);
    }
  }

  lemma ExtendsPorts(chans: seq<Chan>, chans': seq<Chan>, e: Node, ports: map<SidePort, Port>)
    requires Extends(chans, chans') && PortsOk(chans, e, ports)
    ensures PortsOk(chans', e, ports)
  {
    forall k | k in ports
      ensures PortOk(chans', e, k, ports[k])
    {
      assert PortOk(chans, e, k, ports[k]);
    }
  }
}
