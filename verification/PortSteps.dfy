/** The multiplexer's own steps keep the invariant, so no run ever fails. */
module PortSteps {
  import opened Types
  import opened PortMux
  import opened PortChannel
  import opened PortSystem
  import opened PortInvariant
  import opened PortBooks
  import opened PortSafety

  /** Rewriting or removing the entry at k. */
  function Updated(m: Mux, k: SidePort, p: Option<Port>): Mux {
    match p
    case None => RemovePort(m, k)
    case Some(q) => SetPort(m, k, q)
  }

  /** The event handlers do to the table exactly what the channel view expects. */
  lemma EventEffect(chans: seq<Chan>, e: Node, m: Mux, evt: PortEvt, k: SidePort)
    requires EventOk(chans, e, evt) && EventKind(evt) in {Carry, Finish, Close, End}
    requires KeyOf(chans, e, evt.chan) == Some(k) && k in m.ports && PortOk(chans, e, k, m.ports[k])
    requires m.ports[k].Connected? && m.ports[k].chan == evt.chan
    requires EventKind(evt) == Finish ==> !m.ports[k].senderDropped
    requires EventKind(evt) == Close ==> !m.ports[k].receiverClosed
    requires EventKind(evt) in {Close, End} ==> !m.ports[k].receiverDropped
    ensures var r := HandleEvent(m, evt);
            && r.Sent? && r.msg.chan == evt.chan && KindOf(r.msg) == EventKind(evt) && MsgOk(chans, e, r.msg)
            && r.mux == Updated(m, k, AfterEvent(m.ports[k], EventKind(evt)))
  {
    assert m.ports[k := m.ports[k]] == m.ports;
    assert forall q {:trigger SetPort(m, k, q)} :: SetPort(m, k, q).ports - {k} == m.ports - {k};
  }

  /** The message handlers likewise. */
  lemma MessageEffect(chans: seq<Chan>, e: Node, m: Mux, msg: Msg, k: SidePort)
    requires MsgOk(chans, Peer(e), msg) && KindOf(msg) in {Carry, Finish, Close, End}
    requires KeyOf(chans, e, msg.chan) == Some(k) && k in m.ports
    requires m.ports[k].Connected?
    requires KindOf(msg) in {Carry, Finish} ==> m.ports[k].receiverOpen
    requires KindOf(msg) == Close ==> !m.ports[k].remoteReceiverClosed
    ensures HandleReceived(m, msg) == Done(Updated(m, k, AfterMsg(m.ports[k], KindOf(msg))))
  {
    assert m.ports[k := m.ports[k]] == m.ports;
    assert forall q {:trigger SetPort(m, k, q)} :: SetPort(m, k, q).ports - {k} == m.ports - {k};
    FlippedTwice(k, k);
  }

  /** Later states of the same entry. */
  ghost predicate SameEntry(p: Port, p': Option<Port>) {
    p'.Some? ==> p'.value.Connected? && p.Connected? && p'.value.chan == p.chan && p'.value.remotePort == p.remotePort
  }

  lemma UpdatedPorts(chans: seq<Chan>, e: Node, m: Mux, k: SidePort, p': Option<Port>)
    requires PortsOk(chans, e, m.ports) && k in m.ports && SameEntry(m.ports[k], p')
    ensures PortsOk(chans, e, Updated(m, k, p').ports)
  {
  }

  lemma UpdatedBooks(chans: seq<Chan>, st: seq<Status>, st': seq<Status>, e: Node, m: Mux, held: set<u32>, k: SidePort,
          p': Option<Port>)
    requires |st| == |chans| && BooksOk(chans, st, e, m, held) && SameWaiting(st, st') && k in m.ports
    ensures BooksOk(chans, st', e, Updated(m, k, p'), held)
  {
    match p'
    case None => BooksRemovePort(chans, st, st', e, m, held, k);
    case Some(q) => BooksSetPort(chans, st, st', e, m, held, k, q);
  }

  /** Only the channel that owns the entry notices. */
  lemma UpdatedLookup(m: Mux, k: SidePort, p': Option<Port>, key: Option<SidePort>, d: ChanId)
    requires k in m.ports && (p'.Some? ==> p'.value.chan == m.ports[k].chan)
    ensures d != m.ports[k].chan ==> PortFor(Updated(m, k, p'), key, d) == PortFor(m, key, d)
    ensures PortFor(Updated(m, k, p'), Some(k), m.ports[k].chan) == p'
  {
  }

  /** Sending on the normal queue appends to the lane of one channel. */
  lemma NormalSend(o: Out, m: Msg, d: ChanId)
    ensures LaneOf(o.(normal := o.normal + [m]), d) ==
            if m.chan == d then LaneOf(o, d).(normal := LaneOf(o, d).normal + [KindOf(m)]) else LaneOf(o, d)
  {
    MsgsForConcat(o.normal, [m], d);
    assert MsgsFor([m], d) == if m.chan == d then [KindOf(m)] else [];
    assert MsgsFor(o.normal, d) + [] == MsgsFor(o.normal, d);
  }

  lemma HighSend(o: Out, m: Msg, d: ChanId)
    ensures LaneOf(o.(high := o.high + [m]), d) ==
            if m.chan == d then LaneOf(o, d).(ordered := LaneOf(o, d).ordered + [KindOf(m)]) else LaneOf(o, d)
  {
    assert o.(high := o.high + [m]).Ordered() == o.Ordered() + [m];
    MsgsForConcat(o.Ordered(), [m], d);
    assert MsgsFor([m], d) == if m.chan == d then [KindOf(m)] else [];
    assert MsgsFor(o.Ordered(), d) + [] == MsgsFor(o.Ordered(), d);
  }

  /** Handling one normal event, seen by every channel. */
  lemma NextSees(chans: seq<Chan>, ep: Endpoint, ep': Endpoint, e: Node, k: SidePort, p': Option<Port>, msg: Msg)
    requires ep.events != [] && k in ep.mux.ports && ep.mux.ports[k].chan == ep.events[0].chan == msg.chan < |chans|
    requires KeyOf(chans, e, msg.chan) == Some(k) && SameEntry(ep.mux.ports[k], p')
    requires ep' == ep.(mux := Updated(ep.mux, k, p'), events := ep.events[1..],
            out := ep.out.(normal := ep.out.normal + [msg]))
    ensures forall d: ChanId | d < |chans| && d != msg.chan :: SeesSame(chans, ep, ep', e, d)
    ensures var side, lane := SideOf(chans, ep, e, msg.chan), LaneOf(ep.out, msg.chan);
            && side.events != [] && side.events[0] == EventKind(ep.events[0])
            && Sees(chans, ep', e, msg.chan, side.(port := p', events := side.events[1..]),
                    lane.(normal := lane.normal + [KindOf(msg)]))
  {
    hide KeyOf, MsgsFor, EventKind, KindOf, PortFor, Updated, LaneOf;
    forall d: ChanId | d < |chans|
      ensures d != msg.chan ==> SeesSame(chans, ep, ep', e, d)
      ensures d == msg.chan ==>
        var side, lane := SideOf(chans, ep, e, d), LaneOf(ep.out, d);
        && side.events != [] && side.events[0] == EventKind(ep.events[0])
        && Sees(chans, ep', e, d, side.(port := p', events := side.events[1..]),
             lane.(normal := lane.normal + [KindOf(msg)]))
    {
      UpdatedLookup(ep.mux, k, p', KeyOf(chans, e, d), d);
      NormalSend(ep.out, msg, d);
    }
  }

  /** A new message behind all others never follows a request for its own number. */
  lemma AppendOrdered(chans: seq<Chan>, st: seq<Status>, e: Node, q: seq<Msg>, m: Msg)
    requires MsgsOk(chans, e, q) && WireOrdered(chans, q) && m.chan < |chans|
    requires |st| == |chans| && Succession(chans, st)
    requires chans[m.chan].client == e ==> st[m.chan].clientPort
    ensures WireOrdered(chans, q + [m])
  {
    var q' := q + [m];
    forall i, j | 0 <= i < j < |q'| && q'[i].OpenPort? && Older(chans, q'[j].chan, q'[i].chan)
      ensures KindOf(q'[j]) == Note
    {
      assert MsgOk(chans, e, q[i]);
    }
  }

  /** A found entry lies under the channel's own key. */
  lemma FoundUnderKey(chans: seq<Chan>, e: Node, ep: Endpoint, c: ChanId)
    requires c < |chans| && PortsOk(chans, e, ep.mux.ports) && SideOf(chans, ep, e, c).port.Some?
    ensures KeyOf(chans, e, c).Some?
    ensures var k := KeyOf(chans, e, c).value;
            && k in ep.mux.ports && ep.mux.ports[k].chan == c
            && PortOk(chans, e, k, ep.mux.ports[k])
            && SideOf(chans, ep, e, c).port == Some(ep.mux.ports[k])
  {
  }

  /** The event evt of channel c can be handled: its entry p is alive and will not panic. */
  ghost predicate Ready(chans: seq<Chan>, e: Node, m: Mux, evt: PortEvt, k: SidePort) {
    && EventOk(chans, e, evt) && EventKind(evt) in {Carry, Finish, Close, End}
    && KeyOf(chans, e, evt.chan) == Some(k) && k in m.ports && PortOk(chans, e, k, m.ports[k])
    && m.ports[k].Connected? && m.ports[k].chan == evt.chan
    && (EventKind(evt) == Finish ==> !m.ports[k].senderDropped)
    && (EventKind(evt) == Close ==> !m.ports[k].receiverClosed)
    && (EventKind(evt) in {Close, End} ==> !m.ports[k].receiverDropped)
  }

  /** The event at the head of the normal queue finds its entry alive. */
  lemma NextEventReady(s: System, e: Node) returns (k: SidePort)
    requires ChannelsOk(s) && EventsOk(s.chans, e, Ep(s, e).events) && Ep(s, e).events != []
    requires PortsOk(s.chans, e, Ep(s, e).mux.ports)
    ensures Ready(s.chans, e, Ep(s, e).mux, Ep(s, e).events[0], k)
    ensures var evt := Ep(s, e).events[0];
            var mine := Mine(ViewOf(s, evt.chan), s.chans[evt.chan].client == e);
            && mine == SideOf(s.chans, Ep(s, e), e, evt.chan)
            && mine.port == Some(Ep(s, e).mux.ports[k])
            && mine.events != [] && mine.events[0] == EventKind(evt)
  {
    var evt := Ep(s, e).events[0];
    assert EventOk(s.chans, e, evt);
    var v, asClient := ViewOf(s, evt.chan), s.chans[evt.chan].client == e;
    assert Mine(v, asClient) == SideOf(s.chans, Ep(s, e), e, evt.chan);
    EventsMeanEstablished(v, asClient);
    HandlesMeanEstablished(v, asClient);
    EventStep(Mine(v, asClient));
    FoundUnderKey(s.chans, e, Ep(s, e), evt.chan);
    k := KeyOf(s.chans, e, evt.chan).value;
  }

  lemma EventStatus(v: View, v': View)
    requires if Linked(v) then Linked(v') else Answered(v) && Answered(v')
    ensures ChannelOk(v')
    ensures var x, y := StatusOf(v), StatusOf(v');
            !x.opening && !x.asked && !x.pending && !y.opening && !y.asked && !y.pending
  {
    SettledStatus(v);
    SettledStatus(v');
  }

  lemma EventEntry(p: Port, k: Kind)
    requires p.Connected?
    ensures SameEntry(p, AfterEvent(p, k)) && SameEntry(p, AfterMsg(p, k))
  {
  }

  /** Handling a ready event, seen from the channel. */
  lemma NextView(s: System, s': System, e: Node, k: SidePort, p': Option<Port>, msg: Msg)
    requires ChannelsOk(s) && !s.failed && Ep(s, e).events != []
    requires var evt := Ep(s, e).events[0];
             && evt.chan < |s.chans| && msg.chan == evt.chan && KindOf(msg) == EventKind(evt)
             && KeyOf(s.chans, e, evt.chan) == Some(k) && k in Ep(s, e).mux.ports
             && Ep(s, e).mux.ports[k].Connected? && Ep(s, e).mux.ports[k].chan == evt.chan
             && p' == AfterEvent(Ep(s, e).mux.ports[k], EventKind(evt))
             && SideOf(s.chans, Ep(s, e), e, evt.chan).port == Some(Ep(s, e).mux.ports[k])
    requires s' == With(s, e, Ep(s, e).(mux := Updated(Ep(s, e).mux, k, p'), events := Ep(s, e).events[1..],
                                        out := Ep(s, e).out.(normal := Ep(s, e).out.normal + [msg])))
    ensures OnlyChanges(s, s', msg.chan)
    ensures var x, y := StatusOf(ViewOf(s, msg.chan)), StatusOf(ViewOf(s', msg.chan));
            !x.opening && !x.asked && !x.pending && !y.opening && !y.asked && !y.pending
    ensures s.chans[msg.chan].client == e ==> StatusOf(ViewOf(s, msg.chan)).clientPort
  {
    hide ChannelOk, Linked, Answered, Updated, AfterEvent, EventKind, KindOf, SideOf, LaneOf, StatusOf;
    var c := msg.chan;
    var ep := Ep(s, e);
    EventEntry(ep.mux.ports[k], EventKind(ep.events[0]));
    NextSees(s.chans, ep, Ep(s', e), e, k, p', msg);
    OthersUpdate(s, s', e, c);
    var side, lane := SideOf(s.chans, ep, e, c), LaneOf(ep.out, c);
    ViewUpdate(s, s', e, c, side.(port := p', events := side.events[1..]),
      lane.(normal := lane.normal + [KindOf(msg)]));
    HandleStep(ViewOf(s, c), s.chans[c].client == e, KindOf(msg), p');
    EventStatus(ViewOf(s, c), ViewOf(s', c));
    StatusPorts(ViewOf(s, c), ViewOf(s', c), s.chans[c].client == e);
  }

  /** An entry once gone stays gone. */
  lemma StatusPorts(v: View, v': View, asClient: bool)
    requires Mine(v, asClient).port.Some? && Mine(v', !asClient).port == Mine(v, !asClient).port
    requires !StatusOf(v').opening
    ensures asClient ==> StatusOf(v).clientPort
    ensures Forward(StatusOf(v), StatusOf(v').(opening := StatusOf(v).opening))
  {
  }

  lemma StatsAt(s: System, c: ChanId)
    requires c < |s.chans|
    ensures Stats(s)[c] == StatusOf(ViewOf(s, c))
  {
  }

  lemma HandleNextKeeps(s: System, e: Node)
    requires Inv(s)
    ensures Inv(DoHandleNext(s, e))
  {
    hide BooksOk, WireOrdered, Succession, HandlesOk, RequestsOk, ServerKeysOk, ChannelOk, StatusOf, OnlyChanges,
         HandleEvent, Updated, AfterEvent, EventKind, KindOf, SideOf, LaneOf, MsgOk, EventOk, PortOk, ViewOf, Stats;
    var ep := Ep(s, e);
    if ep.events != [] {
      assert NodeOk(s, e) && NodeOk(s, Peer(e));
      var evt, c := ep.events[0], ep.events[0].chan;
      var k := NextEventReady(s, e);
      EventEffect(s.chans, e, ep.mux, evt, k);
      var msg := HandleEvent(ep.mux, evt).msg;
      var p' := AfterEvent(ep.mux.ports[k], EventKind(evt));
      var s' := DoHandleNext(s, e);
      NextView(s, s', e, k, p', msg);
      var y := StatusOf(ViewOf(s', c));
      StatsAt(s, c);
      PeerUntouched(s, Peer(e), c, y);
      EventEntry(ep.mux.ports[k], EventKind(evt));
      UpdatedPorts(s.chans, e, ep.mux, k, p');
      UpdatedBooks(s.chans, Stats(s), Stats(s)[c := y], e, ep.mux, ep.held, k, p');
      AppendOrdered(s.chans, Stats(s), e, ep.out.All(), msg);
      assert Ep(s', e).out.All() == ep.out.All() + [msg];
      Conclude(s, s', c);
    }
  }

  // ---------------------------------------------------------------------------
  // High-priority events
  // ---------------------------------------------------------------------------

  /** An urgent message passes the normal queue without disturbing the order of requests. */
  lemma InsertOrdered(chans: seq<Chan>, e: Node, q: seq<Msg>, m: Msg, r: seq<Msg>)
    requires MsgsOk(chans, e, q + r) && WireOrdered(chans, q + r)
    requires m.chan < |chans| && !m.OpenPort? && (KindOf(m) == Note || chans[m.chan].client != e)
    ensures WireOrdered(chans, q + [m] + r)
  {
    var old', new' := q + r, q + [m] + r;
    forall i, j | 0 <= i < j < |new'| && new'[i].OpenPort? && Older(chans, new'[j].chan, new'[i].chan)
      ensures KindOf(new'[j]) == Note
    {
      var i', j' := if i < |q| then i else i - 1, if j < |q| then j else j - 1;
      if j == |q| {
        assert MsgOk(chans, e, old'[i]) && old'[i] == new'[i];
      } else {
        assert i != |q| && old'[i'] == new'[i] && old'[j'] == new'[j];
      }
    }
  }

  lemma InsertMsgs(chans: seq<Chan>, e: Node, q: seq<Msg>, m: Msg, r: seq<Msg>)
    requires MsgsOk(chans, e, q + r) && MsgOk(chans, e, m)
    ensures MsgsOk(chans, e, q + [m] + r)
  {
    forall i | 0 <= i < |q + [m] + r|
      ensures MsgOk(chans, e, (q + [m] + r)[i])
    {
      assert i < |q| ==> (q + r)[i] == (q + [m] + r)[i];
      assert i > |q| ==> (q + r)[i - 1] == (q + [m] + r)[i];
    }
  }

  lemma HighOut(chans: seq<Chan>, e: Node, o: Out, m: Msg)
    requires MsgsOk(chans, e, o.All()) && WireOrdered(chans, o.All()) && MsgOk(chans, e, m)
    requires !m.OpenPort? && (KindOf(m) == Note || chans[m.chan].client != e)
    ensures MsgsOk(chans, e, o.(high := o.high + [m]).All()) && WireOrdered(chans, o.(high := o.high + [m]).All())
  {
    hide WireOrdered;
    assert o.(high := o.high + [m]).All() == o.Ordered() + [m] + o.normal;
    InsertMsgs(chans, e, o.Ordered(), m, o.normal);
    InsertOrdered(chans, e, o.Ordered(), m, o.normal);
  }

  /** Handling one high-priority event, seen by every channel. */
  lemma HighHandledSees(chans: seq<Chan>, ep: Endpoint, ep': Endpoint, e: Node, c: ChanId, m': Mux,
          hs: map<ChanId, Handles>, msg: Msg)
    requires ep.highEvents != [] && c == ep.highEvents[0].chan == msg.chan < |chans|
    requires ep' == ep.(mux := m', highEvents := ep.highEvents[1..], handles := hs,
            out := ep.out.(high := ep.out.high + [msg]))
    requires forall d: ChanId | d < |chans| && d != c ::
            PortFor(m', KeyOf(chans, e, d), d) == PortFor(ep.mux, KeyOf(chans, e, d), d)
    requires forall d: ChanId | d != c :: Find(hs, d) == Find(ep.handles, d)
    ensures forall d: ChanId | d < |chans| && d != c :: SeesSame(chans, ep, ep', e, d)
    ensures var side, lane := SideOf(chans, ep, e, c), LaneOf(ep.out, c);
            && side.high != [] && side.high[0] == EventKind(ep.highEvents[0])
            && Sees(chans, ep', e, c,
                 side.(port := PortFor(m', KeyOf(chans, e, c), c), handles := Find(hs, c), high := side.high[1..]),
                    lane.(ordered := lane.ordered + [KindOf(msg)]))
  {
    hide KeyOf, MsgsFor, EventKind, KindOf, PortFor, LaneOf, Find;
    HighSend(ep.out, msg, c);
    forall d: ChanId | d < |chans| && d != c
      ensures SeesSame(chans, ep, ep', e, d)
    {
      HighSend(ep.out, msg, d);
    }
  }

  /** The phase of the channel whose event is at the head of the high-priority queue. */
  lemma HighEventPhase(s: System, e: Node)
    requires ChannelsOk(s) && EventsOk(s.chans, e, Ep(s, e).highEvents) && Ep(s, e).highEvents != []
    ensures var evt := Ep(s, e).highEvents[0];
            && EventOk(s.chans, e, evt)
            && var v, asClient := ViewOf(s, evt.chan), s.chans[evt.chan].client == e;
               var k := EventKind(evt);
               && Mine(v, asClient).high != [] && Mine(v, asClient).high[0] == k && k in {Note, Opened, Refused}
               && (k == Note ==> Linked(v) || Answered(v))
               && (k != Note ==> Requested(v) && !asClient && v.server.high == [k])
  {
    var evt := Ep(s, e).highEvents[0];
    assert EventOk(s.chans, e, evt);
    assert Mine(ViewOf(s, evt.chan), s.chans[evt.chan].client == e) == SideOf(s.chans, Ep(s, e), e, evt.chan);
    HighPhase(ViewOf(s, evt.chan), s.chans[evt.chan].client == e);
  }

  /** Note handling never looks at the table. */
  lemma NoteEffect(chans: seq<Chan>, e: Node, m: Mux, evt: PortEvt)
    requires EventOk(chans, e, evt) && EventKind(evt) == Note
    ensures var r := HandleEvent(m, evt);
            r.Sent? && r.mux == m && r.msg.chan == evt.chan && KindOf(r.msg) == Note && !r.msg.OpenPort?
              && MsgOk(chans, e, r.msg)
    ensures !evt.AcceptedReq?
  {
  }

  lemma HandleNoteKeeps(s: System, e: Node)
    requires Inv(s) && Ep(s, e).highEvents != [] && EventKind(Ep(s, e).highEvents[0]) == Note
    ensures Inv(DoHandleHigh(s, e))
  {
    hide BooksOk, WireOrdered, Succession, HandlesOk, RequestsOk, ServerKeysOk, ChannelOk, StatusOf, PortsOk, MsgsOk,
         HandleEvent, EventKind, KindOf, LaneOf, MsgOk, EventOk, PortOk, Stats, Linked, Answered, EventsFor, MsgsFor;
    var ep := Ep(s, e);
    assert NodeOk(s, e) && NodeOk(s, Peer(e));
    var evt, c := ep.highEvents[0], ep.highEvents[0].chan;
    HighEventPhase(s, e);
    NoteEffect(s.chans, e, ep.mux, evt);
    var msg := HandleEvent(ep.mux, evt).msg;
    var s' := DoHandleHigh(s, e);
    HighHandledSees(s.chans, ep, Ep(s', e), e, c, ep.mux, ep.handles, msg);
    OthersUpdate(s, s', e, c);
    NoteView(s, s', e, c, msg);
    HighOut(s.chans, e, ep.out, msg);
    ConcludeQuiet(s, s', e, c);
  }

  lemma NoteView(s: System, s': System, e: Node, c: ChanId, msg: Msg)
    requires c < |s.chans| && s'.chans == s.chans && Ep(s', Peer(e)) == Ep(s, Peer(e)) && KindOf(msg) == Note
    requires ChannelOk(ViewOf(s, c))
    requires var side, lane := SideOf(s.chans, Ep(s, e), e, c), LaneOf(Ep(s, e).out, c);
             && side.high != [] && side.high[0] == Note
             && Sees(s.chans, Ep(s', e), e, c, side.(high := side.high[1..]), lane.(ordered := lane.ordered + [Note]))
    ensures ChannelOk(ViewOf(s', c)) && StatusOf(ViewOf(s', c)) == StatusOf(ViewOf(s, c))
  {
    hide SideOf, LaneOf, Linked, Answered, ChannelOk;
    var side, lane := SideOf(s.chans, Ep(s, e), e, c), LaneOf(Ep(s, e).out, c);
    ViewUpdate(s, s', e, c, side.(high := side.high[1..]), lane.(ordered := lane.ordered + [Note]));
    NoteStep(ViewOf(s, c), s.chans[c].client == e);
    EventStatus(ViewOf(s, c), ViewOf(s', c));
  }

  /** The two answers, with the numbers they name. */
  lemma AnswerEffect(chans: seq<Chan>, e: Node, m: Mux, evt: PortEvt)
    requires EventOk(chans, e, evt) && EventKind(evt) in {Opened, Refused} && chans[evt.chan].num in m.outstanding
    requires EventKind(evt) == Opened ==> chans[evt.chan].serverKey.Some? && chans[evt.chan].serverKey.value !in m.ports
    ensures var r, ch := HandleEvent(m, evt), chans[evt.chan];
            var m' := m.(outstanding := m.outstanding - {ch.num});
            && r.Sent? && r.msg.chan == evt.chan && KindOf(r.msg) == EventKind(evt) && MsgOk(chans, e, r.msg)
                 && ch.client != e
            && (EventKind(evt) == Refused ==> r.mux == m' && !evt.AcceptedReq?)
            && (EventKind(evt) == Opened ==>
                  (evt.AcceptedReq? && r.mux == SetPort(m', ch.serverKey.value, FreshPort(evt.chan, Remote(ch.num)))))
  {
  }

  /** Of the channels waiting for an answer, no two share a number. */
  lemma AskedOnceHolds(s: System, e: Node, c: ChanId)
    requires Succession(s.chans, Stats(s)) && c < |s.chans| && s.chans[c].client != e && Requested(ViewOf(s, c))
    ensures AskedOnce(s.chans, Stats(s), e, c) && Asked(s.chans, Stats(s), e, c)
  {
    forall d: ChanId | 0 <= d < |s.chans| && Asked(s.chans, Stats(s), e, d) && s.chans[d].num == s.chans[c].num
      ensures d == c
    {
      assert Requested(ViewOf(s, d)) && Stats(s)[d].clientPort && Stats(s)[c].clientPort;
      assert d < c ==> Older(s.chans, d, c);
      assert c < d ==> Older(s.chans, c, d);
    }
  }

  lemma RequestedStatus(v: View)
    requires Requested(v)
    ensures var x := StatusOf(v);
            x.asked && !x.opening && x.clientPort && !x.serverPort && (x.pending <==> v.server.high == [Opened])
  {
    assert Opening(v) ==> |v.up.All()| == 1;
  }

  /** An answered request leaves the requested phase. */
  lemma AnswerView(s: System, s': System, e: Node, c: ChanId, k: Kind, p: Port)
    requires c < |s.chans| && s'.chans == s.chans && Ep(s', Peer(e)) == Ep(s, Peer(e)) && s.chans[c].client == Peer(e)
    requires Requested(ViewOf(s, c)) && ViewOf(s, c).server.high == [k]
    requires k == Refused || (k == Opened && p.Connected? && p == FreshPort(p.chan, p.remotePort))
    requires var side, lane := SideOf(s.chans, Ep(s, e), e, c), LaneOf(Ep(s, e).out, c);
             var side' := if k == Refused then side.(high := side.high[1..])
                          else side.(port := Some(p), handles := Some(LIVE), high := side.high[1..]);
             Sees(s.chans, Ep(s', e), e, c, side', lane.(ordered := lane.ordered + [k]))
    ensures ChannelOk(ViewOf(s', c))
    ensures var y := StatusOf(ViewOf(s', c)); y.clientPort && !y.asked && !y.pending && !y.opening
  {
    hide SideOf, LaneOf;
    var v := ViewOf(s, c);
    var side, lane := SideOf(s.chans, Ep(s, e), e, c), LaneOf(Ep(s, e).out, c);
    if k == Refused {
      ViewUpdate(s, s', e, c, side.(high := side.high[1..]), lane.(ordered := lane.ordered + [k]));
      RefuseStep(v);
    } else {
      ViewUpdate(s, s', e, c, side.(port := Some(p), handles := Some(LIVE), high := side.high[1..]),
        lane.(ordered := lane.ordered + [k]));
      AcceptStep(v, p);
    }
    SettledStatus(ViewOf(s', c));
  }

  lemma HandleRefusalKeeps(s: System, e: Node)
    requires Inv(s) && Ep(s, e).highEvents != [] && EventKind(Ep(s, e).highEvents[0]) == Refused
    ensures Inv(DoHandleHigh(s, e))
  {
    hide WireOrdered, Succession, HandlesOk, RequestsOk, ServerKeysOk, ChannelOk, StatusOf, PortsOk, MsgsOk,
      NumbersOk, OutstandingOk, HandleEvent, EventKind, KindOf, LaneOf, MsgOk, EventOk, PortOk, Stats, Linked,
      Answered, EventsFor, MsgsFor;
    var ep := Ep(s, e);
    assert NodeOk(s, e) && NodeOk(s, Peer(e));
    var evt, c := ep.highEvents[0], ep.highEvents[0].chan;
    HighEventPhase(s, e);
    StatsAt(s, c);
    RequestedStatus(ViewOf(s, c));
    AskedOnceHolds(s, e, c);
    var x' := Status(false, false, false, false, false);
    BooksReject(s.chans, Stats(s), e, ep.mux, ep.held, c, x');
    AnswerEffect(s.chans, e, ep.mux, evt);
    var msg := HandleEvent(ep.mux, evt).msg;
    var s' := DoHandleHigh(s, e);
    HighHandledSees(s.chans, ep, Ep(s', e), e, c, Ep(s', e).mux, ep.handles, msg);
    OthersUpdate(s, s', e, c);
    AnswerView(s, s', e, c, Refused, Connecting(c));
    var y := StatusOf(ViewOf(s', c));
    BooksReject(s.chans, Stats(s), e, ep.mux, ep.held, c, y);
    PeerUntouched(s, Peer(e), c, y);
    HighOut(s.chans, e, ep.out, msg);
    Conclude(s, s', c);
  }

  /** Filing a fresh entry disturbs no other channel. */
  lemma FreshLookup(m: Mux, k: SidePort, p: Port, key: Option<SidePort>, d: ChanId)
    requires k !in m.ports
    ensures d != p.chan ==> PortFor(SetPort(m, k, p), key, d) == PortFor(m, key, d)
    ensures PortFor(SetPort(m, k, p), Some(k), p.chan) == Some(p)
  {
  }

  lemma HandleAcceptanceKeeps(s: System, e: Node)
    requires Inv(s) && Ep(s, e).highEvents != [] && EventKind(Ep(s, e).highEvents[0]) == Opened
    ensures Inv(DoHandleHigh(s, e))
  {
    hide WireOrdered, Succession, RequestsOk, ServerKeysOk, ChannelOk, StatusOf, MsgsOk, NumbersOk, OutstandingOk,
         HandleEvent, EventKind, KindOf, LaneOf, MsgOk, EventOk, Stats, Linked, Answered, EventsFor, MsgsFor, PortFor;
    var ep := Ep(s, e);
    assert NodeOk(s, e) && NodeOk(s, Peer(e));
    var evt, c := ep.highEvents[0], ep.highEvents[0].chan;
    HighEventPhase(s, e);
    StatsAt(s, c);
    RequestedStatus(ViewOf(s, c));
    AskedOnceHolds(s, e, c);
    var p := FreshPort(c, Remote(s.chans[c].num));
    BooksAccepted(s.chans, Stats(s), e, ep.mux, ep.held, c, Status(false, false, false, false, false), p);
    AnswerEffect(s.chans, e, ep.mux, evt);
    var msg := HandleEvent(ep.mux, evt).msg;
    var s' := DoHandleHigh(s, e);
    var key := s.chans[c].serverKey.value;
    forall d: ChanId | d < |s.chans|
      ensures d != c ==> PortFor(Ep(s', e).mux, KeyOf(s.chans, e, d), d) == PortFor(ep.mux, KeyOf(s.chans, e, d), d)
      ensures d == c ==> PortFor(Ep(s', e).mux, KeyOf(s.chans, e, d), d) == Some(p)
    {
      FreshLookup(ep.mux.(outstanding := ep.mux.outstanding - {s.chans[c].num}), key, p, KeyOf(s.chans, e, d), d);
      PortForOutstanding(ep.mux, ep.mux.outstanding - {s.chans[c].num}, KeyOf(s.chans, e, d), d);
    }
    HighHandledSees(s.chans, ep, Ep(s', e), e, c, Ep(s', e).mux, ep.handles[c := LIVE], msg);
    OthersUpdate(s, s', e, c);
    AnswerView(s, s', e, c, Opened, p);
    var y := StatusOf(ViewOf(s', c));
    BooksAccepted(s.chans, Stats(s), e, ep.mux, ep.held, c, y, p);
    PeerUntouched(s, Peer(e), c, y);
    HighOut(s.chans, e, ep.out, msg);
    Conclude(s, s', c);
  }

  lemma PortForOutstanding(m: Mux, out: set<u32>, key: Option<SidePort>, d: ChanId)
    ensures PortFor(m.(outstanding := out), key, d) == PortFor(m, key, d)
  {
  }

  lemma HandleHighKeeps(s: System, e: Node)
    requires Inv(s)
    ensures Inv(DoHandleHigh(s, e))
  {
    hide ChannelOk, EventKind, EventOk, BooksOk, Succession, WireOrdered;
    if Ep(s, e).highEvents != [] {
      assert NodeOk(s, e);
      HighEventPhase(s, e);
      var k := EventKind(Ep(s, e).highEvents[0]);
      if k == Note {
        HandleNoteKeeps(s, e);
      } else if k == Opened {
        HandleAcceptanceKeeps(s, e);
      } else {
        HandleRefusalKeeps(s, e);
      }
    }
  }
}
