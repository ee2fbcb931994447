/** Steps that open channels, and the safety of every run. */
module PortOpening {
  import opened Types
  import opened PortMux
  import opened PortChannel
  import opened PortSystem
  import opened PortInvariant
  import opened PortBooks
  import opened PortSafety
  import opened PortSteps
  import opened PortDelivery

  /** Everything an endpoint keeps when only the history of channels grows. */
  lemma ExtendsEndpoint(chans: seq<Chan>, chans': seq<Chan>, e: Node, ep: Endpoint)
    requires Extends(chans, chans') && EndpointOk(chans, e, ep) && WireOrdered(chans, ep.out.All())
    requires forall c | c in ep.requests :: c < |chans| ==> chans'[c] == chans[c]
    ensures EndpointOk(chans', e, ep) && WireOrdered(chans', ep.out.All())
  {
    hide MsgsOk, EventsOk, PortsOk, WireOrdered;
    ExtendsMsgs(chans, chans', e, ep.out.All());
    ExtendsEvents(chans, chans', e, ep.events);
    ExtendsEvents(chans, chans', e, ep.highEvents);
    ExtendsPorts(chans, chans', e, ep.mux.ports);
  }

  // ---------------------------------------------------------------------------
  // Accepting a request
  // ---------------------------------------------------------------------------

  lemma AcceptViews(s: System, e: Node, c: ChanId, key: SidePort)
    requires c < |s.chans| && s.chans[c].client == Peer(e) && c in Ep(s, e).requests
    requires Ep(s, e).requests[c] == Waiting && FreshKey(Ep(s, e).mux, s.chans[c].num, key)
    requires key !in Ep(s, e).mux.ports
    ensures OthersSame(s, DoAccept(s, e, c, key), c)
    ensures var v, v' := ViewOf(s, c), ViewOf(DoAccept(s, e, c, key), c);
            v' == v.(server := v.server.(port := None, request := None, high := v.server.high + [Opened]))
  {
    hide EventsFor, MsgsFor, KindOf, LaneOf;
    var s' := DoAccept(s, e, c, key);
    var evt := AcceptedReq(key, s.chans[c].num, c);
    assert EventsFor([evt], c) == [Opened] by { OneEvent(evt, c); }
    EventsForConcat(Ep(s, e).highEvents, [evt], c);
    forall d: ChanId | d < |s.chans| && d != c
      ensures ViewOf(s', d) == ViewOf(s, d)
    {
      EventsForConcat(Ep(s, e).highEvents, [evt], d);
      EventsForAbsent([evt], d);
      assert EventsFor(Ep(s, e).highEvents, d) + [] == EventsFor(Ep(s, e).highEvents, d);
    }
  }

  lemma OneEvent(evt: PortEvt, c: ChanId)
    ensures EventsFor([evt], c) == if evt.chan == c then [EventKind(evt)] else []
  {
    assert [evt][1..] == [];
  }

  lemma AcceptStatus(v: View, v': View)
    requires Requested(v) && v.server.high == []
    requires v' == v.(server := v.server.(port := None, request := None, high := v.server.high + [Opened]))
    ensures ChannelOk(v') && !StatusOf(v).pending && StatusOf(v').pending
            && StatusOf(v') == StatusOf(v).(pending := true)
  {
    RequestedStatus(v);
    RequestedStatus(v');
  }

  lemma FreshKeyFree(chans: seq<Chan>, st: seq<Status>, e: Node, m: Mux, held: set<u32>, num: u32, key: SidePort)
    requires |st| == |chans| && NumbersOk(chans, st, e, m, held) && FreshKey(m, num, key)
    ensures key !in m.ports
  {
    assert key in m.ports ==> KeyHeld(m, held, key);
  }

  lemma AcceptKeeps(s: System, e: Node, c: ChanId, key: SidePort)
    requires Inv(s)
    ensures Inv(DoAccept(s, e, c, key))
  {
    hide WireOrdered, ChannelOk, StatusOf, MsgsOk, EventsOk, PortsOk, NumbersOk, OutstandingOk, Requested,
         Stats, EventsFor, MsgsFor, LaneOf, PortFor, EventKind, ViewOf;
    var s' := DoAccept(s, e, c, key);
    if s' != s {
      assert NodeOk(s, e) && NodeOk(s, Peer(e));
      RequestMeansAsked(s, e, c);
      FreshKeyFree(s.chans, Stats(s), e, Ep(s, e).mux, Ep(s, e).held, s.chans[c].num, key);
      AcceptViews(s, e, c, key);
      AcceptStatus(ViewOf(s, c), ViewOf(s', c));
      RequestedStatus(ViewOf(s, c));
      StatsAt(s, c);
      StatsAfter(s, s', c);
      assert Asked(s.chans, Stats(s), e, c);
      var ch := s.chans[c].(serverKey := Some(key));
      BooksReserve(s.chans, Stats(s), e, Ep(s, e).mux, Ep(s, e).held, c, key);
      BooksPeerReserve(s.chans, Stats(s), Peer(e), Ep(s, Peer(e)).mux, Ep(s, Peer(e)).held, c, ch,
        StatusOf(ViewOf(s', c)));
      AcceptEndpoints(s, e, c, key);
      AcceptSuccession(s.chans, Stats(s), c, key);
    }
  }

  lemma AcceptSuccession(chans: seq<Chan>, st: seq<Status>, c: ChanId, key: SidePort)
    requires |st| == |chans| && c < |chans| && Succession(chans, st) && !st[c].opening
    ensures Succession(chans[c := chans[c].(serverKey := Some(key))], st[c := st[c].(pending := true)])
  {
    var chans' := chans[c := chans[c].(serverKey := Some(key))];
    assert forall d, f :: Older(chans', d, f) == Older(chans, d, f);
  }

  lemma AcceptEndpoints(s: System, e: Node, c: ChanId, key: SidePort)
    requires EndpointOk(s.chans, e, Ep(s, e)) && WireOrdered(s.chans, Ep(s, e).out.All())
    requires EndpointOk(s.chans, Peer(e), Ep(s, Peer(e))) && WireOrdered(s.chans, Ep(s, Peer(e)).out.All())
    requires c < |s.chans| && s.chans[c].client == Peer(e) && s.chans[c].serverKey.None? && c in Ep(s, e).requests
    requires Ep(s, e).requests[c] == Waiting && FreshKey(Ep(s, e).mux, s.chans[c].num, key)
    ensures var s' := DoAccept(s, e, c, key);
            && EndpointOk(s'.chans, e, Ep(s', e)) && WireOrdered(s'.chans, Ep(s', e).out.All())
            && EndpointOk(s'.chans, Peer(e), Ep(s', Peer(e))) && WireOrdered(s'.chans, Ep(s', Peer(e)).out.All())
  {
    hide MsgsOk, PortsOk, WireOrdered, EventsOk;
    var s' := DoAccept(s, e, c, key);
    var ep := Ep(s, e);
    ExtendsEndpoint(s.chans, s'.chans, e, ep.(requests := ep.requests - {c}));
    ExtendsEndpoint(s.chans, s'.chans, Peer(e), Ep(s, Peer(e)));
    MoreEvents(s'.chans, e, ep.highEvents, AcceptedReq(key, s.chans[c].num, c));
  }

  lemma MoreEvents(chans: seq<Chan>, e: Node, q: seq<PortEvt>, evt: PortEvt)
    requires EventsOk(chans, e, q) && EventOk(chans, e, evt)
    ensures EventsOk(chans, e, q + [evt])
  {
  }

  // ---------------------------------------------------------------------------
  // Asking for a new channel
  // ---------------------------------------------------------------------------

  /** Nothing in an endpoint mentions a channel that does not exist yet. */
  lemma UnknownChannel(chans: seq<Chan>, e: Node, ep: Endpoint, c: ChanId)
    requires EndpointOk(chans, e, ep) && c >= |chans|
    ensures MsgsFor(ep.out.Ordered(), c) == [] && MsgsFor(ep.out.normal, c) == []
    ensures EventsFor(ep.events, c) == [] && EventsFor(ep.highEvents, c) == []
    ensures c !in ep.handles && c !in ep.requests
    ensures forall k | k in ep.mux.ports :: ep.mux.ports[k].chan != c
  {
    var o := ep.out;
    forall i | 0 <= i < |o.Ordered()|
      ensures o.Ordered()[i].chan != c
    {
      assert MsgOk(chans, e, o.All()[i]);
    }
    forall i | 0 <= i < |o.normal|
      ensures o.normal[i].chan != c
    {
      assert MsgOk(chans, e, o.All()[|o.Ordered()| + i]);
    }
    forall i | 0 <= i < |ep.events|
      ensures ep.events[i].chan != c
    {
      assert EventOk(chans, e, ep.events[i]);
    }
    forall i | 0 <= i < |ep.highEvents|
      ensures ep.highEvents[i].chan != c
    {
      assert EventOk(chans, e, ep.highEvents[i]);
    }
    forall k | k in ep.mux.ports
      ensures ep.mux.ports[k].chan != c
    {
      assert PortOk(chans, e, k, ep.mux.ports[k]);
    }
    MsgsForAbsent(o.Ordered(), c);
    MsgsForAbsent(o.normal, c);
    EventsForAbsent(ep.events, c);
    EventsForAbsent(ep.highEvents, c);
  }

  function Connected(s: System, e: Node, n: u32): System {
    var ep, c := Ep(s, e), |s.chans|;
    With(s, e, ep.(mux := SetPort(ep.mux, Local(n), Connecting(c)), held := ep.held - {n},
                   out := ep.out.(normal := ep.out.normal + [OpenPort(n, c)])))
    .(chans := s.chans + [Chan(e, n, None)])
  }

  lemma ConnectOldViews(s: System, e: Node, n: u32, d: ChanId)
    requires Local(n) !in Ep(s, e).mux.ports && d < |s.chans|
    ensures ViewOf(Connected(s, e, n), d) == ViewOf(s, d)
  {
    hide EventsFor, MsgsFor, KindOf, LaneOf, PortFor;
    FreshLookup(Ep(s, e).mux, Local(n), Connecting(|s.chans|), KeyOf(s.chans, e, d), d);
    NormalSend(Ep(s, e).out, OpenPort(n, |s.chans|), d);
  }

  lemma ConnectNewView(s: System, e: Node, n: u32)
    requires EndpointOk(s.chans, e, Ep(s, e)) && EndpointOk(s.chans, Peer(e), Ep(s, Peer(e)))
    ensures Opening(ViewOf(Connected(s, e, n), |s.chans|))
  {
    hide EventsFor, MsgsFor, KindOf, EndpointOk;
    var s', c := Connected(s, e, n), |s.chans|;
    UnknownChannel(s.chans, e, Ep(s, e), c);
    UnknownChannel(s.chans, Peer(e), Ep(s, Peer(e)), c);
    NormalSend(Ep(s, e).out, OpenPort(n, c), c);
    assert KindOf(OpenPort(n, c)) == Open by { OpenKind(OpenPort(n, c)); }
  }

  lemma ConnectSuccession(s: System, e: Node, n: u32)
    requires Succession(s.chans, Stats(s)) && Local(n) !in Ep(s, e).mux.ports
    requires Stats(Connected(s, e, n)) == Stats(s) + [StatusOf(ViewOf(Connected(s, e, n), |s.chans|))]
    requires StatusOf(ViewOf(Connected(s, e, n), |s.chans|)).opening
    ensures Succession(Connected(s, e, n).chans, Stats(Connected(s, e, n)))
  {
    var s' := Connected(s, e, n);
    var chans, chans', st, st' := s.chans, s'.chans, Stats(s), Stats(s');
    forall c, d | 0 <= c < d < |chans'| && Older(chans', c, d)
      ensures !st'[c].clientPort && (st'[d].opening || !st'[c].serverPort)
    {
      if d < |chans| {
        assert Older(chans, c, d);
      } else {
        assert KeyOf(chans, e, c) == Some(Local(n));
        assert !st[c].clientPort;
      }
    }
  }

  lemma ConnectEndpoints(s: System, e: Node, n: u32)
    requires EndpointOk(s.chans, e, Ep(s, e)) && WireOrdered(s.chans, Ep(s, e).out.All())
    requires EndpointOk(s.chans, Peer(e), Ep(s, Peer(e))) && WireOrdered(s.chans, Ep(s, Peer(e)).out.All())
    ensures var s' := Connected(s, e, n);
            && EndpointOk(s'.chans, e, Ep(s', e)) && WireOrdered(s'.chans, Ep(s', e).out.All())
            && EndpointOk(s'.chans, Peer(e), Ep(s', Peer(e))) && WireOrdered(s'.chans, Ep(s', Peer(e)).out.All())
  {
    hide EventsOk;
    var s', ep, c := Connected(s, e, n), Ep(s, e), |s.chans|;
    ExtendsEndpoint(s.chans, s'.chans, e, ep);
    ExtendsEndpoint(s.chans, s'.chans, Peer(e), Ep(s, Peer(e)));
    var q := ep.out.All();
    assert Ep(s', e).out.All() == q + [OpenPort(n, c)];
    forall i | 0 <= i < |q|
      ensures q[i].chan < c
    {
      assert MsgOk(s.chans, e, q[i]);
    }
  }

  lemma ConnectKeeps(s: System, e: Node, n: u32)
    requires Inv(s)
    ensures Inv(DoConnect(s, e, n))
  {
    hide WireOrdered, Succession, ServerKeysOk, ChannelOk, StatusOf, EndpointOk, BooksOk, Stats, ViewOf, Opening;
    var ep, c := Ep(s, e), |s.chans|;
    if n in ep.held {
      assert NodeOk(s, e) && NodeOk(s, Peer(e));
      var s' := Connected(s, e, n);
      BooksConnect(s.chans, Stats(s), e, ep.mux, ep.held, n, Connecting(c), StatusOf(ViewOf(s', c)));
      assert s' == DoConnect(s, e, n);
      forall d: ChanId | d < |s.chans|
        ensures ViewOf(s', d) == ViewOf(s, d)
      {
        ConnectOldViews(s, e, n, d);
      }
      ConnectNewView(s, e, n);
      OpeningStatus(ViewOf(s', c));
      assert ChannelOk(ViewOf(s', c)) by { OpeningOk(ViewOf(s', c)); }
      StatsGrow(s, s');
      BooksExtend(s.chans, Stats(s), Peer(e), Ep(s, Peer(e)).mux, Ep(s, Peer(e)).held, Chan(e, n, None),
        StatusOf(ViewOf(s', c)));
      ConnectEndpoints(s, e, n);
      ConnectSuccession(s, e, n);
      assert ServerKeysOk(s'.chans) by { ServerKeysGrow(s.chans, Chan(e, n, None)); }
    }
  }

  lemma ServerKeysGrow(chans: seq<Chan>, ch: Chan)
    requires ServerKeysOk(chans) && ch.serverKey.None?
    ensures ServerKeysOk(chans + [ch])
  {
  }

  lemma OpeningOk(v: View)
    requires Opening(v)
    ensures ChannelOk(v)
  {
  }

  lemma StatsGrow(s: System, s': System)
    requires |s'.chans| == |s.chans| + 1
    requires forall d: ChanId | d < |s.chans| :: ViewOf(s', d) == ViewOf(s, d)
    ensures Stats(s') == Stats(s) + [StatusOf(ViewOf(s', |s.chans|))]
  {
  }

  // ---------------------------------------------------------------------------
  // Every run
  // ---------------------------------------------------------------------------

  lemma StepKeeps(s: System, step: Step)
    requires Inv(s)
    ensures Inv(Next(s, step))
  {
    hide Inv, DoConnect, DoAccept, DoQueueReject, DoSend, DoClose, DoQueueSenderDropped, DoQueueReceiverDropped,
         DoHandleNext, DoHandleHigh, DoDeliver;
    match step
    case Allocate(e, n) => AllocateKeeps(s, Next(s, step), e, n);
    case Release(e, n) => AllocateKeeps(s, Next(s, step), e, n);
    case Connect(e, n) => ConnectKeeps(s, e, n);
    case Accept(e, c, key) => AcceptKeeps(s, e, c, key);
    case DropRequest(e, c) =>
      if c in Ep(s, e).requests && Ep(s, e).requests[c] == Waiting {
        DropRequestKeeps(s, e, c);
      }
    case QueueReject(e, c, noPorts) => QueueRejectKeeps(s, e, c, noPorts);
    case Send(e, c, p) => SendKeeps(s, e, c, p);
    case CloseReceiver(e, c) => CloseKeeps(s, e, c);
    case DropSender(e, c) => if HasHandles(s, e, c) { DropHandleKeeps(s, e, c); }
    case QueueSenderDropped(e, c) => QueueDroppedKeeps(s, e, c);
    case DropReceiver(e, c) => if HasHandles(s, e, c) { DropHandleKeeps(s, e, c); }
    case QueueReceiverDropped(e, c) => QueueDroppedKeeps(s, e, c);
    case QueueNote(e, c, n) => if HasHandles(s, e, c) { QueueNoteKeeps(s, e, c, n); }
    case HandleNext(e) => HandleNextKeeps(s, e);
    case HandleHigh(e) => HandleHighKeeps(s, e);
    case Transmit(e) => TransmitKeeps(s, e);
    case Deliver(e) => DeliverKeeps(s, e);
  }

  lemma {:induction false} RunInv(steps: seq<Step>)
    ensures Inv(Run(steps))
  {
    hide Inv, Next;
    if steps == [] {
      InitInv();
    } else {
      RunInv(steps[..|steps| - 1]);
      StepKeeps(Run(steps[..|steps| - 1]), steps[|steps| - 1]);
    }
  }
}
