/** The invariant of the two-endpoint system. */
module PortInvariant {
  import opened Types
  import opened PortMux
  import opened PortChannel
  import opened PortSystem

  // Addressing: every message, event and table entry names the port its channel uses.

  predicate MsgOk(chans: seq<Chan>, from: Node, m: Msg) {
    && m.chan < |chans|
    && var ch := chans[m.chan];
       match m
       case OpenPort(n, _) => ch.client == from && ch.num == n
       case PortOpened(n, server, _) => ch.client != from && ch.num == n && ch.serverKey == Some(server)
       case Rejected(n, _, _) => ch.client != from && ch.num == n
       case _ => KeyOf(chans, Peer(from), m.chan) == Some(m.port.Flipped())
  }

  predicate EventOk(chans: seq<Chan>, e: Node, evt: PortEvt) {
    && evt.chan < |chans|
    && var ch := chans[evt.chan];
       match evt
       case ConnectReq(_, _) => false
       case AcceptedReq(k, n, _) => ch.client != e && ch.num == n && ch.serverKey == Some(k)
       case RejectedReq(n, _, _) => ch.client != e && ch.num == n
       case RequestReport(k, _) => KeyOf(chans, e, evt.chan) == Some(k)
       case SenderDropped(k, _) => KeyOf(chans, e, evt.chan) == Some(k)
       case ReceiverClosed(k, _) => KeyOf(chans, e, evt.chan) == Some(k)
       case ReceiverDropped(k, _) => KeyOf(chans, e, evt.chan) == Some(k)
       case _ => KeyOf(chans, Peer(e), evt.chan) == Some(evt.remotePort.Flipped())
  }

  predicate PortOk(chans: seq<Chan>, e: Node, k: SidePort, p: Port) {
    && p.chan < |chans|
    && KeyOf(chans, e, p.chan) == Some(k)
    && (p.Connecting? ==> chans[p.chan].client == e)
    && (p.Connected? ==> KeyOf(chans, Peer(e), p.chan) == Some(p.remotePort.Flipped()))
  }

  predicate MsgsOk(chans: seq<Chan>, from: Node, q: seq<Msg>) {
    forall i | 0 <= i < |q| :: MsgOk(chans, from, q[i])
  }

  predicate EventsOk(chans: seq<Chan>, e: Node, q: seq<PortEvt>) {
    forall i | 0 <= i < |q| :: EventOk(chans, e, q[i])
  }

  predicate PortsOk(chans: seq<Chan>, e: Node, ports: map<SidePort, Port>) {
    forall k | k in ports :: PortOk(chans, e, k, ports[k])
  }

  predicate HandlesOk(chans: seq<Chan>, handles: map<ChanId, Handles>) {
    forall c | c in handles :: c < |chans| && chans[c].serverKey.Some?
  }

  predicate RequestsOk(chans: seq<Chan>, e: Node, requests: map<ChanId, Request>) {
    forall c | c in requests :: c < |chans| && chans[c].client != e && chans[c].serverKey.None?
  }

  predicate EndpointOk(chans: seq<Chan>, e: Node, ep: Endpoint) {
    && MsgsOk(chans, e, ep.out.All())
    && EventsOk(chans, e, ep.events)
    && EventsOk(chans, e, ep.highEvents)
    && PortsOk(chans, e, ep.mux.ports)
    && HandlesOk(chans, ep.handles)
    && RequestsOk(chans, e, ep.requests)
  }

  /** What the bookkeeping of numbers needs to know about one channel. */
  datatype Status = Status(opening: bool, asked: bool, pending: bool, clientPort: bool, serverPort: bool)

  function StatusOf(v: View): Status {
    Status(Opening(v), Requested(v), Requested(v) && v.server.high == [Opened],
           v.client.port.Some?, v.server.port.Some?)
  }

  function Stats(s: System): (st: seq<Status>)
    ensures |st| == |s.chans|
  {
    seq(|s.chans|, c requires 0 <= c < |s.chans| => StatusOf(ViewOf(s, c)))
  }

  // Successive users of one number.

  predicate Older(chans: seq<Chan>, c: ChanId, d: ChanId) {
    c < d < |chans| && chans[c].client == chans[d].client && chans[c].num == chans[d].num
  }

  /** The requester has left an older channel, and once the peer has seen the new request so has the peer. */
  predicate Succession(chans: seq<Chan>, st: seq<Status>)
    requires |st| == |chans|
  {
    && (forall c, d | 0 <= c < d < |chans| && Older(chans, c, d) ::
          !st[c].clientPort && (st[d].opening || !st[c].serverPort))
    && (forall c | 0 <= c < |chans| && st[c].opening :: chans[c].serverKey.None?)
  }

  /** Behind a request for a number, only notes of that number's older channels may follow. */
  predicate WireOrdered(chans: seq<Chan>, q: seq<Msg>) {
    forall i, j | 0 <= i < j < |q| && q[i].OpenPort? && Older(chans, q[j].chan, q[i].chan) :: KindOf(q[j]) == Note
  }

  // Numbers in use.

  /** A request of the peer that endpoint e has not answered. */
  predicate Asked(chans: seq<Chan>, st: seq<Status>, e: Node, c: ChanId)
    requires |st| == |chans|
  {
    c < |chans| && chans[c].client != e && st[c].asked
  }

  /** An accepted request of the peer waits in e's event queue, holding its key. */
  predicate Pending(chans: seq<Chan>, st: seq<Status>, e: Node, c: ChanId)
    requires |st| == |chans|
  {
    c < |chans| && chans[c].client != e && st[c].pending
  }

  predicate OutstandingOk(chans: seq<Chan>, st: seq<Status>, e: Node, outstanding: set<u32>)
    requires |st| == |chans|
  {
    && (forall c | 0 <= c < |chans| && Asked(chans, st, e, c) :: chans[c].num in outstanding)
    && (forall n | n in outstanding :: exists c | 0 <= c < |chans| :: Asked(chans, st, e, c) && chans[c].num == n)
  }

  predicate KeyHeld(m: Mux, held: set<u32>, k: SidePort) {
    match k
    case Local(n) => n in m.localUsed && n !in held
    case Remote(n) => n in m.remoteUsed
  }

  predicate PendingOk(chans: seq<Chan>, m: Mux, held: set<u32>, c: ChanId)
    requires c < |chans|
  {
    && chans[c].serverKey.Some?
    && KeyHeld(m, held, chans[c].serverKey.value)
    && chans[c].serverKey.value !in m.ports
  }

  /** A remote number is in use only by a port or an acceptance on its way. */
  predicate RemoteAccounted(chans: seq<Chan>, st: seq<Status>, e: Node, m: Mux, n: u32)
    requires |st| == |chans|
  {
    Remote(n) in m.ports || exists c | 0 <= c < |chans| ::
      Pending(chans, st, e, c) && chans[c].serverKey == Some(Remote(n))
  }

  predicate NumbersOk(chans: seq<Chan>, st: seq<Status>, e: Node, m: Mux, held: set<u32>)
    requires |st| == |chans|
  {
    && held <= m.localUsed
    && (forall k | k in m.ports :: KeyHeld(m, held, k))
    && (forall c | 0 <= c < |chans| && Pending(chans, st, e, c) :: PendingOk(chans, m, held, c))
    && (forall c, d | 0 <= c < d < |chans| && Pending(chans, st, e, c) && Pending(chans, st, e, d) ::
          chans[c].serverKey != chans[d].serverKey)
    && (forall n | n in m.remoteUsed :: RemoteAccounted(chans, st, e, m, n))
  }

  /** A channel accepted under a remote key uses the requester's own number. */
  predicate ServerKeysOk(chans: seq<Chan>) {
    forall c | 0 <= c < |chans| && chans[c].serverKey.Some? && chans[c].serverKey.value.Remote? ::
      chans[c].serverKey.value.num == chans[c].num
  }

  predicate BooksOk(chans: seq<Chan>, st: seq<Status>, e: Node, m: Mux, held: set<u32>)
    requires |st| == |chans|
  {
    OutstandingOk(chans, st, e, m.outstanding) && NumbersOk(chans, st, e, m, held)
  }

  predicate ChannelsOk(s: System) {
    forall c | 0 <= c < |s.chans| :: ChannelOk(ViewOf(s, c))
  }

  predicate NodeOk(s: System, e: Node) {
    && EndpointOk(s.chans, e, Ep(s, e))
    && WireOrdered(s.chans, Ep(s, e).out.All())
    && BooksOk(s.chans, Stats(s), e, Ep(s, e).mux, Ep(s, e).held)
  }

  predicate Inv(s: System) {
    && !s.failed
    && ChannelsOk(s)
    && ServerKeysOk(s.chans)
    && Succession(s.chans, Stats(s))
    && NodeOk(s, A)
    && NodeOk(s, B)
  }

  lemma InitInv()
    ensures Inv(INIT)
  {
  }
}

/** How the bookkeeping changes, on statuses alone. */
module PortBooks {
  import opened Types
  import opened PortMux
  import opened PortChannel
  import opened PortSystem
  import opened PortInvariant

  /** Only the waiting requests matter for the numbers. */
  ghost predicate SameWaiting(st: seq<Status>, st': seq<Status>) {
    |st| == |st'| && forall c | 0 <= c < |st| :: st'[c].asked == st[c].asked && st'[c].pending == st[c].pending
  }

  lemma BooksKept(chans: seq<Chan>, st: seq<Status>, st': seq<Status>, e: Node, m: Mux, held: set<u32>)
    requires |st| == |chans| && BooksOk(chans, st, e, m, held) && SameWaiting(st, st')
    ensures BooksOk(chans, st', e, m, held)
  {
    forall n | n in m.outstanding
      ensures exists c | 0 <= c < |chans| :: Asked(chans, st', e, c) && chans[c].num == n
    {
      var c :| 0 <= c < |chans| && Asked(chans, st, e, c) && chans[c].num == n;
      assert Asked(chans, st', e, c);
    }
    forall n | n in m.remoteUsed
      ensures RemoteAccounted(chans, st', e, m, n)
    {
      AccountedKept(chans, st, st', e, m, m, n);
    }
  }

  lemma AccountedKept(chans: seq<Chan>, st: seq<Status>, st': seq<Status>, e: Node, m: Mux, m': Mux, n: u32)
    requires |st| == |chans| && RemoteAccounted(chans, st, e, m, n)
    requires |st'| == |chans| && forall c | 0 <= c < |chans| :: st[c].pending ==> st'[c].pending
    requires Remote(n) in m.ports ==> Remote(n) in m'.ports
    ensures RemoteAccounted(chans, st', e, m', n)
  {
    if Remote(n) !in m.ports {
      var c :| 0 <= c < |chans| && Pending(chans, st, e, c) && chans[c].serverKey == Some(Remote(n));
      assert Pending(chans, st', e, c);
    }
  }

  /** Rewriting an entry keeps the books. */
  lemma BooksSetPort(chans: seq<Chan>, st: seq<Status>, st': seq<Status>, e: Node, m: Mux, held: set<u32>, k: SidePort,
          p: Port)
    requires |st| == |chans| && BooksOk(chans, st, e, m, held) && SameWaiting(st, st')
    requires k in m.ports
    ensures BooksOk(chans, st', e, SetPort(m, k, p), held)
  {
    BooksKept(chans, st, st', e, m, held);
    var m' := SetPort(m, k, p);
    forall n | n in m'.remoteUsed
      ensures RemoteAccounted(chans, st', e, m', n)
    {
      AccountedKept(chans, st', st', e, m, m', n);
    }
  }

  /** Releasing an entry frees exactly its own number. */
  lemma BooksRemovePort(chans: seq<Chan>, st: seq<Status>, st': seq<Status>, e: Node, m: Mux, held: set<u32>,
          k: SidePort)
    requires |st| == |chans| && BooksOk(chans, st, e, m, held) && SameWaiting(st, st')
    requires k in m.ports
    ensures BooksOk(chans, st', e, RemovePort(m, k), held)
  {
    BooksKept(chans, st, st', e, m, held);
    var m' := RemovePort(m, k);
    forall n | n in m'.remoteUsed
      ensures RemoteAccounted(chans, st', e, m', n)
    {
      AccountedKept(chans, st', st', e, m, m', n);
    }
    forall k' | k' in m'.ports
      ensures KeyHeld(m', held, k')
    {
      assert KeyHeld(m, held, k');
    }
    assert KeyHeld(m, held, k);
  }

  lemma BooksAllocate(chans: seq<Chan>, st: seq<Status>, e: Node, m: Mux, held: set<u32>, n: u32)
    requires |st| == |chans| && BooksOk(chans, st, e, m, held)
    ensures n !in m.localUsed ==> BooksOk(chans, st, e, m.(localUsed := m.localUsed + {n}), held + {n})
    ensures n in held ==> BooksOk(chans, st, e, m.(localUsed := m.localUsed - {n}), held - {n})
  {
    forall l: set<u32>, k | k in m.remoteUsed
      ensures RemoteAccounted(chans, st, e, m.(localUsed := l), k)
    {
      AccountedKept(chans, st, st, e, m, m.(localUsed := l), k);
    }
  }

  /** A new request by e itself takes one of the numbers it holds. */
  lemma BooksConnect(chans: seq<Chan>, st: seq<Status>, e: Node, m: Mux, held: set<u32>, n: u32, p: Port, x: Status)
    requires |st| == |chans| && BooksOk(chans, st, e, m, held) && n in held
    ensures Local(n) !in m.ports
    ensures BooksOk(chans + [Chan(e, n, None)], st + [x], e, SetPort(m, Local(n), p), held - {n})
  {
    var chans', st', m' := chans + [Chan(e, n, None)], st + [x], SetPort(m, Local(n), p);
    assert Local(n) in m.ports ==> KeyHeld(m, held, Local(n));
    BooksExtend(chans, st, e, m, held, Chan(e, n, None), x);
    forall k | k in m'.remoteUsed
      ensures RemoteAccounted(chans', st', e, m', k)
    {
      AccountedKept(chans', st', st', e, m, m', k);
    }
    forall c | 0 <= c < |chans'| && Pending(chans', st', e, c)
      ensures PendingOk(chans', m', held - {n}, c)
    {
      assert PendingOk(chans', m, held, c);
    }
  }

  /** A new channel that asks nothing of e. */
  lemma BooksExtend(chans: seq<Chan>, st: seq<Status>, e: Node, m: Mux, held: set<u32>, ch: Chan, x: Status)
    requires |st| == |chans| && BooksOk(chans, st, e, m, held)
    requires ch.client == e || (!x.asked && !x.pending)
    ensures BooksOk(chans + [ch], st + [x], e, m, held)
  {
    var chans', st' := chans + [ch], st + [x];
    forall n | n in m.outstanding
      ensures exists c | 0 <= c < |chans'| :: Asked(chans', st', e, c) && chans'[c].num == n
    {
      var c :| 0 <= c < |chans| && Asked(chans, st, e, c) && chans[c].num == n;
      assert Asked(chans', st', e, c);
    }
    forall n | n in m.remoteUsed
      ensures RemoteAccounted(chans', st', e, m, n)
    {
      if Remote(n) !in m.ports {
        var c :| 0 <= c < |chans| && Pending(chans, st, e, c) && chans[c].serverKey == Some(Remote(n));
        assert Pending(chans', st', e, c);
      }
    }
    forall c | 0 <= c < |chans'| && Pending(chans', st', e, c)
      ensures PendingOk(chans', m, held, c)
    {
      assert Pending(chans, st, e, c);
    }
    forall c, d | 0 <= c < d < |chans'| && Pending(chans', st', e, c) && Pending(chans', st', e, d)
      ensures chans'[c].serverKey != chans'[d].serverKey
    {
      assert Pending(chans, st, e, c) && Pending(chans, st, e, d);
    }
  }

  /** A request arrives. */
  lemma BooksAsk(chans: seq<Chan>, st: seq<Status>, e: Node, m: Mux, held: set<u32>, c: ChanId, x: Status)
    requires |st| == |chans| && BooksOk(chans, st, e, m, held)
    requires c < |chans| && chans[c].client != e && !st[c].pending && x.asked && !x.pending
    ensures BooksOk(chans, st[c := x], e, m.(outstanding := m.outstanding + {chans[c].num}), held)
  {
    var st', m' := st[c := x], m.(outstanding := m.outstanding + {chans[c].num});
    assert Asked(chans, st', e, c);
    forall n | n in m'.outstanding
      ensures exists d | 0 <= d < |chans| :: Asked(chans, st', e, d) && chans[d].num == n
    {
      if n != chans[c].num {
        var d :| 0 <= d < |chans| && Asked(chans, st, e, d) && chans[d].num == n;
        assert Asked(chans, st', e, d);
      }
    }
    forall n | n in m.remoteUsed
      ensures RemoteAccounted(chans, st', e, m', n)
    {
      AccountedKept(chans, st, st', e, m, m', n);
    }
    forall d, f | 0 <= d < f < |chans| && Pending(chans, st', e, d) && Pending(chans, st', e, f)
      ensures chans[d].serverKey != chans[f].serverKey
    {
      assert Pending(chans, st, e, d) && Pending(chans, st, e, f);
    }
    forall d | 0 <= d < |chans| && Pending(chans, st', e, d)
      ensures PendingOk(chans, m', held, d)
    {
      assert Pending(chans, st, e, d);
    }
  }

  /** Of the channels waiting for an answer, no two share a number. */
  ghost predicate AskedOnce(chans: seq<Chan>, st: seq<Status>, e: Node, c: ChanId)
    requires |st| == |chans| && c < |chans|
  {
    forall d | 0 <= d < |chans| && Asked(chans, st, e, d) && chans[d].num == chans[c].num :: d == c
  }

  /** A request is answered: it is no longer outstanding. */
  lemma OutstandingAnswer(chans: seq<Chan>, st: seq<Status>, e: Node, out: set<u32>, c: ChanId, x: Status)
    requires |st| == |chans| && OutstandingOk(chans, st, e, out)
    requires c < |chans| && Asked(chans, st, e, c) && AskedOnce(chans, st, e, c) && !x.asked
    ensures chans[c].num in out
    ensures OutstandingOk(chans, st[c := x], e, out - {chans[c].num})
  {
    var st' := st[c := x];
    forall n | n in out - {chans[c].num}
      ensures exists d | 0 <= d < |chans| :: Asked(chans, st', e, d) && chans[d].num == n
    {
      var d :| 0 <= d < |chans| && Asked(chans, st, e, d) && chans[d].num == n;
      assert Asked(chans, st', e, d);
    }
    forall d | 0 <= d < |chans| && Asked(chans, st', e, d)
      ensures chans[d].num in out - {chans[c].num}
    {
      assert Asked(chans, st, e, d) && d != c;
    }
  }

  lemma BooksReject(chans: seq<Chan>, st: seq<Status>, e: Node, m: Mux, held: set<u32>, c: ChanId, x: Status)
    requires |st| == |chans| && BooksOk(chans, st, e, m, held)
    requires c < |chans| && Asked(chans, st, e, c) && AskedOnce(chans, st, e, c)
    requires !st[c].pending && !x.asked && !x.pending
    ensures chans[c].num in m.outstanding
    ensures BooksOk(chans, st[c := x], e, m.(outstanding := m.outstanding - {chans[c].num}), held)
  {
    var st', m' := st[c := x], m.(outstanding := m.outstanding - {chans[c].num});
    OutstandingAnswer(chans, st, e, m.outstanding, c, x);
    forall n | n in m.remoteUsed
      ensures RemoteAccounted(chans, st', e, m', n)
    {
      AccountedKept(chans, st, st', e, m, m', n);
    }
    forall d | 0 <= d < |chans| && Pending(chans, st', e, d)
      ensures PendingOk(chans, m', held, d)
    {
      assert Pending(chans, st, e, d);
    }
    forall d, f | 0 <= d < f < |chans| && Pending(chans, st', e, d) && Pending(chans, st', e, f)
      ensures chans[d].serverKey != chans[f].serverKey
    {
      assert Pending(chans, st, e, d) && Pending(chans, st, e, f);
    }
  }

  /** An acceptance is handled: its key moves from the queue into the port table. */
  lemma BooksAccepted(chans: seq<Chan>, st: seq<Status>, e: Node, m: Mux, held: set<u32>, c: ChanId, x: Status, p: Port)
    requires |st| == |chans| && BooksOk(chans, st, e, m, held)
    requires c < |chans| && Asked(chans, st, e, c) && AskedOnce(chans, st, e, c)
    requires st[c].pending && !x.asked && !x.pending
    ensures chans[c].num in m.outstanding && chans[c].serverKey.Some? && chans[c].serverKey.value !in m.ports
    ensures BooksOk(chans, st[c := x], e,
                    SetPort(m.(outstanding := m.outstanding - {chans[c].num}), chans[c].serverKey.value, p), held)
  {
    assert Pending(chans, st, e, c);
    var key := chans[c].serverKey.value;
    var st', m' := st[c := x], SetPort(m.(outstanding := m.outstanding - {chans[c].num}), key, p);
    OutstandingAnswer(chans, st, e, m.outstanding, c, x);
    forall n | n in m.remoteUsed
      ensures RemoteAccounted(chans, st', e, m', n)
    {
      if Remote(n) !in m'.ports {
        var d :| 0 <= d < |chans| && Pending(chans, st, e, d) && chans[d].serverKey == Some(Remote(n));
        assert Pending(chans, st', e, d);
      }
    }
    forall d | 0 <= d < |chans| && Pending(chans, st', e, d)
      ensures PendingOk(chans, m', held, d)
    {
      assert Pending(chans, st, e, d) && d != c;
    }
    forall d, f | 0 <= d < f < |chans| && Pending(chans, st', e, d) && Pending(chans, st', e, f)
      ensures chans[d].serverKey != chans[f].serverKey
    {
      assert Pending(chans, st, e, d) && Pending(chans, st, e, f);
    }
  }

  lemma OutstandingKept(chans: seq<Chan>, st: seq<Status>, chans': seq<Chan>, st': seq<Status>, e: Node, out: set<u32>)
    requires |st| == |chans| == |chans'| == |st'| && OutstandingOk(chans, st, e, out)
    requires forall c | 0 <= c < |chans| ::
               chans'[c].client == chans[c].client && chans'[c].num == chans[c].num && st'[c].asked == st[c].asked
    ensures OutstandingOk(chans', st', e, out)
  {
    forall n | n in out
      ensures exists d | 0 <= d < |chans'| :: Asked(chans', st', e, d) && chans'[d].num == n
    {
      var d :| 0 <= d < |chans| && Asked(chans, st, e, d) && chans[d].num == n;
      assert Asked(chans', st', e, d);
    }
    forall d | 0 <= d < |chans'| && Asked(chans', st', e, d)
      ensures chans'[d].num in out
    {
      assert Asked(chans, st, e, d);
    }
  }

  /** A request is accepted under a fresh key. */
  lemma BooksReserve(chans: seq<Chan>, st: seq<Status>, e: Node, m: Mux, held: set<u32>, c: ChanId, key: SidePort)
    requires |st| == |chans| && BooksOk(chans, st, e, m, held)
    requires c < |chans| && Asked(chans, st, e, c) && !st[c].pending
    requires FreshKey(m, chans[c].num, key)
    ensures BooksOk(chans[c := chans[c].(serverKey := Some(key))], st[c := st[c].(pending := true)], e,
            Reserve(m, key), held)
  {
    var chans', st', m' := chans[c := chans[c].(serverKey := Some(key))], st[c := st[c].(pending := true)],
      Reserve(m, key);
    OutstandingKept(chans, st, chans', st', e, m.outstanding);
    assert key in m.ports ==> KeyHeld(m, held, key);
    assert Pending(chans', st', e, c);
    forall n | n in m'.remoteUsed
      ensures RemoteAccounted(chans', st', e, m', n)
    {
      if n in m.remoteUsed && Remote(n) !in m.ports {
        var d :| 0 <= d < |chans| && Pending(chans, st, e, d) && chans[d].serverKey == Some(Remote(n));
        assert Pending(chans', st', e, d);
      }
    }
    forall d | 0 <= d < |chans'| && Pending(chans', st', e, d)
      ensures PendingOk(chans', m', held, d)
      ensures d != c ==> chans'[d].serverKey != Some(key)
    {
      if d != c { assert Pending(chans, st, e, d); }
    }
    forall d, f | 0 <= d < f < |chans'| && Pending(chans', st', e, d) && Pending(chans', st', e, f)
      ensures chans'[d].serverKey != chans'[f].serverKey
    {
      if d != c && f != c { assert Pending(chans, st, e, d) && Pending(chans, st, e, f); }
    }
  }

  /** Accepting at the peer does not concern e, who asked. */
  lemma BooksPeerReserve(chans: seq<Chan>, st: seq<Status>, e: Node, m: Mux, held: set<u32>, c: ChanId, ch: Chan,
          x: Status)
    requires |st| == |chans| && BooksOk(chans, st, e, m, held)
    requires c < |chans| && chans[c].client == e && ch == chans[c].(serverKey := ch.serverKey)
    ensures BooksOk(chans[c := ch], st[c := x], e, m, held)
  {
    var chans', st' := chans[c := ch], st[c := x];
    forall n | n in m.outstanding
      ensures exists d | 0 <= d < |chans'| :: Asked(chans', st', e, d) && chans'[d].num == n
    {
      var d :| 0 <= d < |chans| && Asked(chans, st, e, d) && chans[d].num == n;
      assert Asked(chans', st', e, d);
    }
    forall n | n in m.remoteUsed
      ensures RemoteAccounted(chans', st', e, m, n)
    {
      if Remote(n) !in m.ports {
        var d :| 0 <= d < |chans| && Pending(chans, st, e, d) && chans[d].serverKey == Some(Remote(n));
        assert Pending(chans', st', e, d);
      }
    }
    forall d | 0 <= d < |chans'| && Pending(chans', st', e, d)
      ensures PendingOk(chans', m, held, d)
    {
      assert Pending(chans, st, e, d);
    }
    forall d, f | 0 <= d < f < |chans'| && Pending(chans', st', e, d) && Pending(chans', st', e, f)
      ensures chans'[d].serverKey != chans'[f].serverKey
    {
      assert Pending(chans, st, e, d) && Pending(chans, st, e, f);
    }
    forall d | 0 <= d < |chans'| && Asked(chans', st', e, d)
      ensures chans'[d].num in m.outstanding
    {
      assert Asked(chans, st, e, d);
    }
  }
}
