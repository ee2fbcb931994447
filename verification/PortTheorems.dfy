/** What holds in every reachable state of two connected multiplexers. */
module PortTheorems {
  import opened Types
  import opened PortMux
  import opened PortChannel
  import opened PortSystem
  import opened PortInvariant
  import opened PortBooks
  import opened PortSafety
  import opened PortSteps
  import opened PortDelivery
  import opened PortOpening

  /** No panic and no protocol error is ever reached. */
  lemma NeverFails(steps: seq<Step>)
    ensures !Run(steps).failed
  {
    RunInv(steps);
  }

  /** Whatever comes next in any queue or on any wire can be handled. */
  lemma HandlersSucceed(steps: seq<Step>, e: Node)
    ensures var s := Run(steps);
            && (Ep(s, e).events != [] ==> HandleEvent(Ep(s, e).mux, Ep(s, e).events[0]).Sent?)
            && (Ep(s, e).highEvents != [] ==> HandleEvent(Ep(s, e).mux, Ep(s, e).highEvents[0]).Sent?)
            && (Ep(s, Peer(e)).out.wire != [] ==> HandleReceived(Ep(s, e).mux, Ep(s, Peer(e)).out.wire[0]).Done?)
  {
    hide HandleEvent, HandleReceived, Inv;
    var s := Run(steps);
    NeverFails(steps);
    NextOf(steps, HandleNext(e));
    NextOf(steps, HandleHigh(e));
    NextOf(steps, Deliver(e));
  }

  lemma NextOf(steps: seq<Step>, step: Step)
    ensures !Next(Run(steps), step).failed
  {
    hide Next, Inv;
    RunInv(steps);
    StepKeeps(Run(steps), step);
    InvNotFailed(Next(Run(steps), step));
  }

  lemma InvNotFailed(s: System)
    requires Inv(s)
    ensures !s.failed
  {
  }

  lemma {:induction false} MsgCounted(q: seq<Msg>, i: nat)
    requires i < |q|
    ensures KindOf(q[i]) in MsgsFor(q, q[i].chan)
  {
    if i > 0 {
      MsgCounted(q[1..], i - 1);
    }
  }

  /**
   A data or shutdown message under way always has somewhere to go: the entry it is addressed
   to belongs to its own channel, or is about to be filed by an answer further ahead. Once an
   endpoint has released a port, only messages its handlers ignore are under way to it.
   */
  lemma MessagesFindTheirPort(steps: seq<Step>, e: Node, i: nat)
    requires i < |Ep(Run(steps), Peer(e)).out.All()|
    requires KindOf(Ep(Run(steps), Peer(e)).out.All()[i]) in {Carry, Finish, Close, End}
    ensures var m := Ep(Run(steps), Peer(e)).out.All()[i];
            var ports := Ep(Run(steps), e).mux.ports;
            m.port.Flipped() in ports && ports[m.port.Flipped()].chan == m.chan
  {
    hide *;
    RunInv(steps);
    MessageFindsEntry(Run(steps), e, i);
  }

  lemma MessageFindsEntry(s: System, e: Node, i: nat)
    requires Inv(s) && i < |Ep(s, Peer(e)).out.All()|
    requires KindOf(Ep(s, Peer(e)).out.All()[i]) in {Carry, Finish, Close, End}
    ensures var m := Ep(s, Peer(e)).out.All()[i];
            m.port.Flipped() in Ep(s, e).mux.ports && Ep(s, e).mux.ports[m.port.Flipped()].chan == m.chan
  {
    hide MsgsFor, EventsFor, WireOrdered, BooksOk, Succession, ChannelOk, ServerKeysOk, Stats;
    assert NodeOk(s, e) && NodeOk(s, Peer(e));
    var o := Ep(s, Peer(e)).out;
    var m := o.All()[i];
    assert MsgOk(s.chans, Peer(e), m);
    var c := m.chan;
    MsgCounted(o.All(), i);
    MsgsForConcat(o.Ordered(), o.normal, c);
    var asClient := s.chans[c].client == e;
    assert InLane(ViewOf(s, c), asClient).All() == MsgsFor(o.All(), c);
    assert Mine(ViewOf(s, c), asClient) == SideOf(s.chans, Ep(s, e), e, c);
    FlowNeedsPort(ViewOf(s, c), asClient, KindOf(m));
    FoundUnderKey(s.chans, e, Ep(s, e), c);
  }

  lemma FlowNeedsPort(v: View, asClient: bool, k: Kind)
    requires ChannelOk(v) && k in InLane(v, asClient).All() && k in {Carry, Finish, Close, End}
    ensures Mine(v, asClient).port.Some?
  {
    var ks := InLane(v, asClient).All();
    if Mine(v, asClient).port.None? && Linked(v) {
      OverMeansNotes(ks);
    }
  }

  /** A number asked for again is free at the peer: no entry, request or reservation still uses it. */
  lemma ReuseNeverAliases(steps: seq<Step>, e: Node)
    requires Ep(Run(steps), Peer(e)).out.wire != [] && Ep(Run(steps), Peer(e)).out.wire[0].OpenPort?
    ensures var n, m := Ep(Run(steps), Peer(e)).out.wire[0].clientPort, Ep(Run(steps), e).mux;
            n !in m.outstanding && Remote(n) !in m.ports && n !in m.remoteUsed
  {
    hide EventsFor, MsgsFor, WireOrdered, ChannelOk, Succession, NumbersOk, OutstandingOk, Opening;
    var s := Run(steps);
    RunInv(steps);
    assert NodeOk(s, e) && NodeOk(s, Peer(e));
    var o := Ep(s, Peer(e)).out;
    var c := o.wire[0].chan;
    PoppedOut(s.chans, Peer(e), o);
    PoppedLane(o, c);
    OpenKind(o.wire[0]);
    assert InLane(ViewOf(s, c), false) == LaneOf(o, c);
    ArrivalPhase(ViewOf(s, c), false);
    NotOutstanding(s, e, c);
    forall d: ChanId | Older(s.chans, d, c)
      ensures ViewOf(s, d).server.port.None?
    {
      OlderGone(s, e, c, d);
    }
    OpeningStatus(ViewOf(s, c));
    RemoteFree(s, e, c);
  }

  /** If every older channel of c's number has left e, and no other asks, the remote number is free at e. */
  lemma RemoteFree(s: System, e: Node, c: ChanId)
    requires NodeOk(s, e) && Succession(s.chans, Stats(s)) && ServerKeysOk(s.chans)
    requires c < |s.chans| && s.chans[c].client == Peer(e) && StatusOf(ViewOf(s, c)).clientPort
    requires ViewOf(s, c).server.port.None? && !StatusOf(ViewOf(s, c)).pending
    requires forall d: ChanId | Older(s.chans, d, c) :: ViewOf(s, d).server.port.None?
    ensures Remote(s.chans[c].num) !in Ep(s, e).mux.ports && s.chans[c].num !in Ep(s, e).mux.remoteUsed
  {
    hide EventsFor, MsgsFor, WireOrdered, Requested, Opening;
    var n, m := s.chans[c].num, Ep(s, e).mux;
    StatsAt(s, c);
    forall d: ChanId | d < |s.chans| && s.chans[d].client == Peer(e) && s.chans[d].num == n && d != c
      ensures Older(s.chans, d, c)
    {
      assert c < d ==> Older(s.chans, c, d);
    }
    forall d: ChanId | d < |s.chans|
      ensures !(Pending(s.chans, Stats(s), e, d) && s.chans[d].serverKey == Some(Remote(n)))
    {
      StatsAt(s, d);
      RequestedStatusIf(ViewOf(s, d));
    }
    assert Remote(n) in m.ports ==> PortOk(s.chans, e, Remote(n), m.ports[Remote(n)]);
    assert forall d: ChanId | d < |s.chans| && s.chans[d].client == Peer(e) ::
        ViewOf(s, d).server == SideOf(s.chans, Ep(s, e), e, d);
    assert n in m.remoteUsed ==> RemoteAccounted(s.chans, Stats(s), e, m, n);
  }

  lemma RequestedStatusIf(v: View)
    ensures StatusOf(v).pending ==> StatusOf(v).clientPort
  {
  }

  /** Accepting a waiting request under the requester's number never finds that number taken. */
  lemma AcceptanceNeverFails(steps: seq<Step>, e: Node, c: ChanId)
    requires c in Ep(Run(steps), e).requests
    ensures c < |Run(steps).chans|
    ensures FreshKey(Ep(Run(steps), e).mux, Run(steps).chans[c].num, Remote(Run(steps).chans[c].num))
  {
    hide EventsFor, MsgsFor, WireOrdered, ChannelOk, NumbersOk, OutstandingOk, Requested;
    var s := Run(steps);
    RunInv(steps);
    assert NodeOk(s, e);
    RequestMeansAsked(s, e, c);
    RequestedStatus(ViewOf(s, c));
    StatsAt(s, c);
    forall d: ChanId | Older(s.chans, d, c)
      ensures ViewOf(s, d).server.port.None?
    {
      StatsAt(s, d);
    }
    RequestedNoPort(ViewOf(s, c));
    RemoteFree(s, e, c);
  }

  lemma RequestedNoPort(v: View)
    requires Requested(v)
    ensures v.server.port.None?
  {
  }

  /** The two ends of a channel name each other: flipping one's remote port gives the other's key. */
  lemma AddressesAgree(steps: seq<Step>, e: Node, k: SidePort, k': SidePort)
    requires var s := Run(steps);
             && k in Ep(s, e).mux.ports && Ep(s, e).mux.ports[k].Connected?
             && k' in Ep(s, Peer(e)).mux.ports && Ep(s, Peer(e)).mux.ports[k'].Connected?
             && Ep(s, e).mux.ports[k].chan == Ep(s, Peer(e)).mux.ports[k'].chan
    ensures Ep(Run(steps), e).mux.ports[k].remotePort.Flipped() == k'
    ensures Ep(Run(steps), Peer(e)).mux.ports[k'].remotePort.Flipped() == k
  {
    hide EventsFor, MsgsFor, WireOrdered, ChannelOk, BooksOk, Succession, ServerKeysOk;
    var s := Run(steps);
    RunInv(steps);
    assert NodeOk(s, e) && NodeOk(s, Peer(e));
    assert PortOk(s.chans, e, k, Ep(s, e).mux.ports[k]);
    assert PortOk(s.chans, Peer(e), k', Ep(s, Peer(e)).mux.ports[k']);
    assert Peer(Peer(e)) == e;
  }

  /** At one endpoint no two entries belong to one channel. */
  lemma OneEntryPerChannel(steps: seq<Step>, e: Node, k: SidePort, k': SidePort)
    requires k in Ep(Run(steps), e).mux.ports && k' in Ep(Run(steps), e).mux.ports
    requires Ep(Run(steps), e).mux.ports[k].chan == Ep(Run(steps), e).mux.ports[k'].chan
    ensures k == k'
  {
    hide EventsFor, MsgsFor, WireOrdered, ChannelOk, BooksOk, Succession, ServerKeysOk;
    var s := Run(steps);
    RunInv(steps);
    assert NodeOk(s, e);
    assert PortOk(s.chans, e, k, Ep(s, e).mux.ports[k]) && PortOk(s.chans, e, k', Ep(s, e).mux.ports[k']);
  }
}
