/** Every step keeps the invariant. */
module PortSafety {
  import opened Types
  import opened PortMux
  import opened PortChannel
  import opened PortSystem
  import opened PortInvariant
  import opened PortBooks

  /** All channels but c look the same in both states. */
  ghost predicate OthersSame(s: System, s': System, c: ChanId) {
    && |s'.chans| == |s.chans|
    && forall d: ChanId | d < |s.chans| && d != c :: ViewOf(s', d) == ViewOf(s, d)
  }

  lemma StatsAfter(s: System, s': System, c: ChanId)
    requires c < |s.chans| && OthersSame(s, s', c)
    ensures Stats(s') == Stats(s)[c := StatusOf(ViewOf(s', c))]
  {
  }

  /** A channel the requester has left stays left; a request once seen stays seen. */
  ghost predicate Forward(x: Status, y: Status) {
    && (!x.clientPort ==> !y.clientPort && (!x.serverPort ==> !y.serverPort))
    && (x.opening ==> y.opening)
  }

  lemma SuccessionKept(chans: seq<Chan>, st: seq<Status>, c: ChanId, y: Status)
    requires |st| == |chans| && Succession(chans, st) && c < |chans|
    requires Forward(st[c], y.(opening := st[c].opening)) && (y.opening ==> st[c].opening)
    requires st[c].opening && !y.opening ==> forall d | 0 <= d < c && Older(chans, d, c) :: !st[d].serverPort
    ensures Succession(chans, st[c := y])
  {
  }

  /** What is left to show when a step changes the view of one channel only. */
  ghost predicate OnlyChanges(s: System, s': System, c: ChanId)
    requires c < |s.chans|
  {
    && !s'.failed && s'.chans == s.chans
    && OthersSame(s, s', c)
    && ChannelOk(ViewOf(s', c))
    && var x, y := StatusOf(ViewOf(s, c)), StatusOf(ViewOf(s', c));
       Forward(x, y.(opening := x.opening)) && (y.opening ==> x.opening)
  }

  ghost predicate Passes(s: System, s': System, c: ChanId)
    requires c < |s.chans| && s'.chans == s.chans
  {
    StatusOf(ViewOf(s, c)).opening && !StatusOf(ViewOf(s', c)).opening ==>
      forall d | 0 <= d < c && Older(s.chans, d, c) :: !Stats(s)[d].serverPort
  }

  ghost predicate LocalOk(chans: seq<Chan>, st: seq<Status>, e: Node, ep: Endpoint)
    requires |st| == |chans|
  {
    EndpointOk(chans, e, ep) && WireOrdered(chans, ep.out.All()) && BooksOk(chans, st, e, ep.mux, ep.held)
  }

  /** The parts of a step that stay within one channel c. */
  lemma Conclude(s: System, s': System, c: ChanId)
    requires Inv(s) && c < |s.chans| && OnlyChanges(s, s', c) && Passes(s, s', c)
    requires LocalOk(s.chans, Stats(s)[c := StatusOf(ViewOf(s', c))], A, Ep(s', A))
    requires LocalOk(s.chans, Stats(s)[c := StatusOf(ViewOf(s', c))], B, Ep(s', B))
    ensures Inv(s')
  {
    hide EndpointOk, WireOrdered, BooksOk, ChannelOk;
    StatsAfter(s, s', c);
    SuccessionKept(s.chans, Stats(s), c, StatusOf(ViewOf(s', c)));
  }

  // ---------------------------------------------------------------------------
  // Numbers
  // ---------------------------------------------------------------------------

  /** Channels depend on everything but the sets of numbers. */
  lemma NumbersInvisible(s: System, s': System)
    requires ChannelsOk(s) && s'.chans == s.chans
    requires forall e: Node :: Ep(s', e) == Ep(s, e).(held := Ep(s', e).held, mux := Ep(s', e).mux)
    requires forall e: Node :: Ep(s', e).mux.ports == Ep(s, e).mux.ports
    ensures Stats(s') == Stats(s) && ChannelsOk(s')
  {
    assert forall c: ChanId | c < |s.chans| :: ViewOf(s', c) == ViewOf(s, c);
  }

  lemma AllocateKeeps(s: System, s': System, e: Node, n: u32)
    requires Inv(s)
    requires s' == Next(s, Allocate(e, n)) || s' == Next(s, Release(e, n))
    ensures Inv(s')
  {
    NumbersInvisible(s, s');
    BooksAllocate(s.chans, Stats(s), e, Ep(s, e).mux, Ep(s, e).held, n);
  }

  // ---------------------------------------------------------------------------
  // Sending queue
  // ---------------------------------------------------------------------------

  lemma TransmittedOrder(o: Out)
    ensures Transmitted(o).All() == o.All()
    ensures o.high != [] ==> Transmitted(o).Ordered() == o.Ordered()
    ensures o.high == [] && o.normal != [] ==> Transmitted(o).Ordered() == o.Ordered() + [o.normal[0]]
  {
  }

  lemma LanesTransmitted(o: Out, c: ChanId)
    ensures LaneOf(Transmitted(o), c).All() == LaneOf(o, c).All()
    ensures LaneOf(o, c).ordered <= LaneOf(Transmitted(o), c).ordered
  {
    TransmittedOrder(o);
    var o' := Transmitted(o);
    MsgsForConcat(o.Ordered(), o.normal, c);
    MsgsForConcat(o'.Ordered(), o'.normal, c);
    if o.high == [] && o.normal != [] {
      MsgsForConcat(o.Ordered(), [o.normal[0]], c);
    }
    hide MsgsFor;
  }

  lemma LongerPrefix(v: View, v': View)
    requires ChannelOk(v) && v'.client == v.client && v'.server == v.server
    requires v'.up.All() == v.up.All() && v'.down.All() == v.down.All()
    requires v.down.ordered <= v'.down.ordered
    ensures ChannelOk(v') && StatusOf(v') == StatusOf(v)
  {
    if Answered(v) {
      assert v.down.ordered[1..] + v.down.normal == v.down.All()[1..];
      assert v'.down.ordered[1..] + v'.down.normal == v'.down.All()[1..];
    }
  }

  lemma TransmitChannels(s: System, s': System, e: Node)
    requires ChannelsOk(s) && s' == With(s, e, Ep(s, e).(out := Transmitted(Ep(s, e).out)))
    ensures ChannelsOk(s') && Stats(s') == Stats(s)
  {
    forall c: ChanId | c < |s.chans|
      ensures ChannelOk(ViewOf(s', c)) && StatusOf(ViewOf(s', c)) == StatusOf(ViewOf(s, c))
    {
      LanesTransmitted(Ep(s, e).out, c);
      LongerPrefix(ViewOf(s, c), ViewOf(s', c));
    }
  }

  lemma TransmitKeeps(s: System, e: Node)
    requires Inv(s)
    ensures Inv(Next(s, Transmit(e)))
  {
    hide BooksOk, WireOrdered, Succession, ChannelsOk, Stats, EventsOk, MsgsOk, PortsOk, HandlesOk, RequestsOk,
      ServerKeysOk;
    var s' := With(s, e, Ep(s, e).(out := Transmitted(Ep(s, e).out)));
    TransmitChannels(s, s', e);
    assert Ep(s', e).out.All() == Ep(s, e).out.All();
    assert NodeOk(s', A) && NodeOk(s', B);
  }

  // ---------------------------------------------------------------------------
  // Application steps
  // ---------------------------------------------------------------------------

  /** Established channels have no pending request. */
  lemma SettledStatus(v: View)
    requires Linked(v) || Answered(v) || Gone(v) || Refusing(v)
    ensures !StatusOf(v).opening && !StatusOf(v).asked && !StatusOf(v).pending
  {
    assert Answered(v) ==> v.down.All()[0] == Opened;
    assert Refusing(v) ==> v.down.All()[0] == Refused;
    assert Opening(v) ==> |v.up.All()| == 1;
  }

  /** The peer's books and queues are untouched when it is not involved and no answer is given. */
  lemma PeerUntouched(s: System, e: Node, c: ChanId, y: Status)
    requires NodeOk(s, e) && c < |s.chans|
    requires s.chans[c].client == e || (y.asked == Stats(s)[c].asked && y.pending == Stats(s)[c].pending)
    ensures LocalOk(s.chans, Stats(s)[c := y], e, Ep(s, e))
  {
    hide EndpointOk, WireOrdered;
    if s.chans[c].client == e {
      BooksPeerReserve(s.chans, Stats(s), e, Ep(s, e).mux, Ep(s, e).held, c, s.chans[c], y);
      assert s.chans[c := s.chans[c]] == s.chans;
    } else {
      BooksKept(s.chans, Stats(s), Stats(s)[c := y], e, Ep(s, e).mux, Ep(s, e).held);
    }
  }

  /** How endpoint e sees channel c. */
  ghost predicate Sees(chans: seq<Chan>, ep: Endpoint, e: Node, c: ChanId, side: Side, lane: Lane)
    requires c < |chans|
  {
    SideOf(chans, ep, e, c) == side && LaneOf(ep.out, c) == lane
  }

  ghost predicate SeesSame(chans: seq<Chan>, ep: Endpoint, ep': Endpoint, e: Node, c: ChanId)
    requires c < |chans|
  {
    Sees(chans, ep', e, c, SideOf(chans, ep, e, c), LaneOf(ep.out, c))
  }

  /** A change at one endpoint is a change of one side of each view. */
  lemma ViewUpdate(s: System, s': System, e: Node, c: ChanId, side: Side, lane: Lane)
    requires s'.chans == s.chans && c < |s.chans| && Ep(s', Peer(e)) == Ep(s, Peer(e))
    requires Sees(s.chans, Ep(s', e), e, c, side, lane)
    ensures ViewOf(s', c) == Put(ViewOf(s, c), s.chans[c].client == e, side, lane)
    ensures SideOf(s.chans, Ep(s, e), e, c) == Mine(ViewOf(s, c), s.chans[c].client == e)
    ensures LaneOf(Ep(s, e).out, c) == OutLane(ViewOf(s, c), s.chans[c].client == e)
  {
    hide SideOf, LaneOf;
    assert s.chans[c].client == e || s.chans[c].client == Peer(e);
  }

  lemma OthersUpdate(s: System, s': System, e: Node, c: ChanId)
    requires s'.chans == s.chans && c < |s.chans| && Ep(s', Peer(e)) == Ep(s, Peer(e))
    requires forall d: ChanId | d < |s.chans| && d != c :: SeesSame(s.chans, Ep(s, e), Ep(s', e), e, d)
    ensures OthersSame(s, s', c)
  {
    hide SideOf, LaneOf;
    forall d: ChanId | d < |s.chans| && d != c
      ensures ViewOf(s', d) == ViewOf(s, d)
    {
      assert SeesSame(s.chans, Ep(s, e), Ep(s', e), e, d);
      ViewUpdate(s, s', e, d, SideOf(s.chans, Ep(s, e), e, d), LaneOf(Ep(s, e).out, d));
    }
  }

  /** Replacing handles and appending events changes one side of one channel. */
  lemma AppSees(chans: seq<Chan>, ep: Endpoint, ep': Endpoint, e: Node, c: ChanId, h: Handles, evts: seq<PortEvt>)
    requires c < |chans|
    requires ep' == ep.(handles := ep.handles[c := h], events := ep.events + evts)
    requires forall i | 0 <= i < |evts| :: evts[i].chan == c
    ensures forall d: ChanId | d < |chans| && d != c :: SeesSame(chans, ep, ep', e, d)
    ensures var side := SideOf(chans, ep, e, c);
            Sees(chans, ep', e, c, side.(handles := Some(h), events := side.events + EventsFor(evts, c)),
              LaneOf(ep.out, c))
  {
    hide EventsFor, MsgsFor, KeyOf, PortFor;
    EventsForConcat(ep.events, evts, c);
    forall d: ChanId | d < |chans| && d != c
      ensures SeesSame(chans, ep, ep', e, d)
    {
      EventsForConcat(ep.events, evts, d);
      EventsForAbsent(evts, d);
      assert EventsFor(ep.events, d) + [] == EventsFor(ep.events, d);
    }
  }

  lemma AppChannel(v: View, asClient: bool, h: Handles, ks: seq<Kind>)
    requires ChannelOk(v) && Mine(v, asClient).handles.Some?
    requires FeedAll(AppFlow(Mine(v, asClient).handles.value), ks) == Some(AppFlow(h)) && Note !in ks
    ensures var mine := Mine(v, asClient);
            var v' := Put(v, asClient, mine.(handles := Some(h), events := mine.events + ks), OutLane(v, asClient));
            ChannelOk(v') && StatusOf(v') == StatusOf(v)
  {
    var mine := Mine(v, asClient);
    HandlesMeanEstablished(v, asClient);
    FeedConcat(SendFlow(mine.port), mine.events, ks);
    var mine' := mine.(handles := Some(h), events := mine.events + ks);
    AppStep(v, asClient, mine');
    SettledStatus(v);
    SettledStatus(Put(v, asClient, mine', OutLane(v, asClient)));
  }

  /** A step that leaves every status alone keeps the books. */
  lemma ConcludeQuiet(s: System, s': System, e: Node, c: ChanId)
    requires Inv(s) && c < |s.chans| && !s'.failed && s'.chans == s.chans
    requires OthersSame(s, s', c) && ChannelOk(ViewOf(s', c)) && StatusOf(ViewOf(s', c)) == StatusOf(ViewOf(s, c))
    requires Ep(s', Peer(e)) == Ep(s, Peer(e))
    requires EndpointOk(s.chans, e, Ep(s', e)) && WireOrdered(s.chans, Ep(s', e).out.All())
    requires Ep(s', e).mux == Ep(s, e).mux && Ep(s', e).held == Ep(s, e).held
    ensures Inv(s')
  {
    hide EndpointOk, WireOrdered, BooksOk, ChannelOk, StatusOf, Succession;
    StatsAfter(s, s', c);
    assert Stats(s') == Stats(s);
    assert NodeOk(s', e) && NodeOk(s', Peer(e));
  }

  lemma AppEndpoint(chans: seq<Chan>, e: Node, ep: Endpoint, c: ChanId, h: Handles, evts: seq<PortEvt>)
    requires EndpointOk(chans, e, ep) && EventsOk(chans, e, evts) && c in ep.handles
    ensures EndpointOk(chans, e, ep.(handles := ep.handles[c := h], events := ep.events + evts))
  {
    hide MsgsOk, PortsOk, RequestsOk;
  }

  lemma AppKeeps(s: System, s': System, e: Node, c: ChanId, h: Handles, evts: seq<PortEvt>)
    requires Inv(s) && HasHandles(s, e, c)
    requires s' == With(s, e, Ep(s, e).(handles := Ep(s, e).handles[c := h], events := Ep(s, e).events + evts))
    requires EventsOk(s.chans, e, evts)
    requires forall i | 0 <= i < |evts| :: evts[i].chan == c
    requires FeedAll(AppFlow(Ep(s, e).handles[c]), EventsFor(evts, c)) == Some(AppFlow(h))
    requires Note !in EventsFor(evts, c)
    ensures Inv(s')
  {
    hide BooksOk, WireOrdered, Succession, ServerKeysOk, ChannelOk, StatusOf, FeedAll, EventsFor, Stats, EndpointOk,
      Sees;
    var side, lane := SideOf(s.chans, Ep(s, e), e, c), LaneOf(Ep(s, e).out, c);
    assert NodeOk(s, e);
    AppEndpoint(s.chans, e, Ep(s, e), c, h, evts);
    AppSees(s.chans, Ep(s, e), Ep(s', e), e, c, h, evts);
    OthersUpdate(s, s', e, c);
    ViewUpdate(s, s', e, c, side.(handles := Some(h), events := side.events + EventsFor(evts, c)), lane);
    AppChannel(ViewOf(s, c), s.chans[c].client == e, h, EventsFor(evts, c));
    hide SideOf, LaneOf, AppFlow;
    ConcludeQuiet(s, s', e, c);
  }

  lemma SendKeeps(s: System, e: Node, c: ChanId, p: Payload)
    requires Inv(s)
    ensures Inv(DoSend(s, e, c, p))
  {
    hide Inv;
    if HasHandles(s, e, c) && MaySend(Ep(s, e).handles[c], p) {
      var evt := PayloadEvent(p, KeyOf(s.chans, e, c).value, KeyOf(s.chans, Peer(e), c).value, c);
      var h := Ep(s, e).handles[c];
      assert Ep(s, e).handles[c := h] == Ep(s, e).handles;
      assert EventsFor([evt], c) == [Carry];
      assert FeedAll(AppFlow(h), [Carry]) == FeedAll(AppFlow(h), [Carry][1..]);
      AppKeeps(s, DoSend(s, e, c, p), e, c, h, [evt]);
    }
  }

  lemma CloseKeeps(s: System, e: Node, c: ChanId)
    requires Inv(s)
    ensures Inv(DoClose(s, e, c))
  {
    hide Inv;
    if HasHandles(s, e, c) && Ep(s, e).handles[c].receiver == Live && !Ep(s, e).handles[c].closed {
      var evt := ReceiverClosed(KeyOf(s.chans, e, c).value, c);
      var h := Ep(s, e).handles[c].(closed := true);
      assert EventsFor([evt], c) == [Close];
      assert FeedAll(AppFlow(h), [Close][1..]) == Some(AppFlow(h));
      AppKeeps(s, DoClose(s, e, c), e, c, h, [evt]);
    }
  }

  lemma DropHandleKeeps(s: System, e: Node, c: ChanId)
    requires Inv(s) && HasHandles(s, e, c)
    ensures Ep(s, e).handles[c].sender == Live ==> Inv(SetHandles(s, e, c, Ep(s, e).handles[c].(sender := DropSpawned)))
    ensures Ep(s, e).handles[c].receiver == Live ==>
            Inv(SetHandles(s, e, c, Ep(s, e).handles[c].(receiver := DropSpawned)))
  {
    hide Inv;
    var h := Ep(s, e).handles[c];
    assert Ep(s, e).events + [] == Ep(s, e).events;
    if h.sender == Live {
      AppKeeps(s, SetHandles(s, e, c, h.(sender := DropSpawned)), e, c, h.(sender := DropSpawned), []);
    }
    if h.receiver == Live {
      AppKeeps(s, SetHandles(s, e, c, h.(receiver := DropSpawned)), e, c, h.(receiver := DropSpawned), []);
    }
  }

  lemma QueueDroppedKeeps(s: System, e: Node, c: ChanId)
    requires Inv(s)
    ensures Inv(DoQueueSenderDropped(s, e, c)) && Inv(DoQueueReceiverDropped(s, e, c))
  {
    hide Inv;
    if HasHandles(s, e, c) {
      var k := KeyOf(s.chans, e, c).value;
      var h := Ep(s, e).handles[c];
      if h.sender == DropSpawned {
        assert EventsFor([SenderDropped(k, c)], c) == [Finish];
        assert FeedAll(AppFlow(h.(sender := DropQueued)), [Finish][1..]) == Some(AppFlow(h.(sender := DropQueued)));
        AppKeeps(s, DoQueueSenderDropped(s, e, c), e, c, h.(sender := DropQueued), [SenderDropped(k, c)]);
      }
      if h.receiver == DropSpawned {
        assert EventsFor([ReceiverDropped(k, c)], c) == [End];
        assert FeedAll(AppFlow(h.(receiver := DropQueued)), [End][1..]) == Some(AppFlow(h.(receiver := DropQueued)));
        AppKeeps(s, DoQueueReceiverDropped(s, e, c), e, c, h.(receiver := DropQueued), [ReceiverDropped(k, c)]);
      }
    }
  }

  // ---------------------------------------------------------------------------
  // Answering requests
  // ---------------------------------------------------------------------------

  /** A waiting request means the channel is in its requested phase, on the server side. */
  lemma RequestMeansAsked(s: System, e: Node, c: ChanId)
    requires ChannelsOk(s) && RequestsOk(s.chans, e, Ep(s, e).requests) && c in Ep(s, e).requests
    ensures c < |s.chans| && s.chans[c].client == Peer(e) && s.chans[c].serverKey.None?
    ensures Requested(ViewOf(s, c)) && ViewOf(s, c).server.high == []
    ensures ViewOf(s, c).server == SideOf(s.chans, Ep(s, e), e, c)
  {
  }

  lemma HighSees(chans: seq<Chan>, ep: Endpoint, ep': Endpoint, e: Node, c: ChanId, reqs: map<ChanId, Request>,
          evts: seq<PortEvt>)
    requires c < |chans|
    requires ep' == ep.(requests := reqs, highEvents := ep.highEvents + evts)
    requires forall d: ChanId | d != c :: Find(reqs, d) == Find(ep.requests, d)
    requires forall i | 0 <= i < |evts| :: evts[i].chan == c
    ensures forall d: ChanId | d < |chans| && d != c :: SeesSame(chans, ep, ep', e, d)
    ensures var side := SideOf(chans, ep, e, c);
            Sees(chans, ep', e, c, side.(request := Find(reqs, c), high := side.high + EventsFor(evts, c)),
              LaneOf(ep.out, c))
  {
    hide EventsFor, MsgsFor, KeyOf, PortFor, Find;
    EventsForConcat(ep.highEvents, evts, c);
    forall d: ChanId | d < |chans| && d != c
      ensures SeesSame(chans, ep, ep', e, d)
    {
      EventsForConcat(ep.highEvents, evts, d);
      EventsForAbsent(evts, d);
      assert EventsFor(ep.highEvents, d) + [] == EventsFor(ep.highEvents, d);
    }
  }

  lemma DropRequestKeeps(s: System, e: Node, c: ChanId)
    requires Inv(s) && c in Ep(s, e).requests && Ep(s, e).requests[c] == Waiting
    ensures Inv(With(s, e, Ep(s, e).(requests := Ep(s, e).requests[c := RejectSpawned])))
  {
    hide BooksOk, WireOrdered, Succession, MsgsOk, PortsOk, EventsOk, HandlesOk, ServerKeysOk, Stats;
    var reqs := Ep(s, e).requests[c := RejectSpawned];
    var s' := With(s, e, Ep(s, e).(requests := reqs));
    assert NodeOk(s, e);
    RequestMeansAsked(s, e, c);
    assert Ep(s, e).highEvents + [] == Ep(s, e).highEvents;
    HighSees(s.chans, Ep(s, e), Ep(s', e), e, c, reqs, []);
    OthersUpdate(s, s', e, c);
    var side := SideOf(s.chans, Ep(s, e), e, c);
    ViewUpdate(s, s', e, c, side.(request := Some(RejectSpawned), high := side.high + []), LaneOf(Ep(s, e).out, c));
    ConcludeQuiet(s, s', e, c);
  }

  lemma QueueRejectKeeps(s: System, e: Node, c: ChanId, noPorts: bool)
    requires Inv(s)
    ensures Inv(DoQueueReject(s, e, c, noPorts))
  {
    hide BooksOk, WireOrdered, Succession, MsgsOk, PortsOk, HandlesOk, ServerKeysOk, Stats, ChannelOk, StatusOf,
      Requested;
    var s' := DoQueueReject(s, e, c, noPorts);
    if s' != s {
      var evt := RejectedReq(s.chans[c].num, noPorts, c);
      assert NodeOk(s, e);
      RequestMeansAsked(s, e, c);
      HighSees(s.chans, Ep(s, e), Ep(s', e), e, c, Ep(s, e).requests - {c}, [evt]);
      OthersUpdate(s, s', e, c);
      var side := SideOf(s.chans, Ep(s, e), e, c);
      assert EventsFor([evt], c) == [Refused];
      ViewUpdate(s, s', e, c, side.(request := None, high := side.high + [Refused]), LaneOf(Ep(s, e).out, c));
      RefusalQueued(ViewOf(s, c));
      ConcludeQuiet(s, s', e, c);
    }
  }

  lemma RefusalQueued(v: View)
    requires Requested(v) && v.server.high == []
    ensures var v' := Put(v, false, v.server.(request := None, high := v.server.high + [Refused]), OutLane(v, false));
            ChannelOk(v') && StatusOf(v') == StatusOf(v)
  {
    assert [] + [Refused] == [Refused];
  }

  lemma NoteEventOk(chans: seq<Chan>, e: Node, c: ChanId, n: NoteKind)
    requires c < |chans| && KeyOf(chans, Peer(e), c).Some?
    ensures var evt := NoteEvent(n, KeyOf(chans, Peer(e), c).value, c);
            evt.chan == c && EventOk(chans, e, evt) && EventsFor([evt], c) == [Note]
  {
  }

  /** Notes may be queued by any established side. */
  lemma QueueNoteKeeps(s: System, e: Node, c: ChanId, n: NoteKind)
    requires Inv(s) && HasHandles(s, e, c)
    ensures Inv(With(s, e,
            Ep(s, e).(highEvents := Ep(s, e).highEvents + [NoteEvent(n, KeyOf(s.chans, Peer(e), c).value, c)])))
  {
    hide BooksOk, WireOrdered, Succession, MsgsOk, PortsOk, HandlesOk, RequestsOk, ServerKeysOk, Stats, ChannelOk,
      StatusOf, NoteEvent, EventOk, EventsFor, MsgsFor, LaneOf, PortFor;
    var evt := NoteEvent(n, KeyOf(s.chans, Peer(e), c).value, c);
    var s' := With(s, e, Ep(s, e).(highEvents := Ep(s, e).highEvents + [evt]));
    assert NodeOk(s, e);
    NoteEventOk(s.chans, e, c, n);
    HighSees(s.chans, Ep(s, e), Ep(s', e), e, c, Ep(s, e).requests, [evt]);
    OthersUpdate(s, s', e, c);
    var side, lane := SideOf(s.chans, Ep(s, e), e, c), LaneOf(Ep(s, e).out, c);
    ViewUpdate(s, s', e, c, side.(high := side.high + [Note]), lane);
    MoreNotes(ViewOf(s, c), s.chans[c].client == e);
    ConcludeQuiet(s, s', e, c);
  }

  lemma MoreNotes(v: View, asClient: bool)
    requires ChannelOk(v) && Mine(v, asClient).handles.Some?
    ensures var mine := Mine(v, asClient);
            var v' := Put(v, asClient, mine.(high := mine.high + [Note]), OutLane(v, asClient));
            ChannelOk(v') && StatusOf(v') == StatusOf(v)
  {
    var mine := Mine(v, asClient);
    HandlesMeanEstablished(v, asClient);
    AppStep(v, asClient, mine.(high := mine.high + [Note]));
    SettledStatus(v);
    SettledStatus(Put(v, asClient, mine.(high := mine.high + [Note]), OutLane(v, asClient)));
  }
}
