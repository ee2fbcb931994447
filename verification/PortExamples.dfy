/** Concrete runs: a channel opens and closes again, leaving both endpoints as they began. */
module PortExamples {
  import opened Types
  import opened PortMux
  import opened PortChannel
  import opened PortSystem

  lemma Then(steps: seq<Step>, step: Step) returns (more: seq<Step>)
    ensures Run(more) == Next(Run(steps), step)
  {
    more := steps + [step];
    assert more[..|more| - 1] == steps;
  }

  /** What an endpoint knows of channel 0: its table entry, its application's handles and its wire. */
  datatype ChannelEnd = ChannelEnd(port: Option<Port>, handles: Handles, wire: seq<Msg>)

  /** One channel under number 1, asked for by A, seen from both endpoints. */
  datatype Ends = Ends(a: ChannelEnd, b: ChannelEnd)

  function Of(es: Ends, e: Node): ChannelEnd {
    if e == A then es.a else es.b
  }

  function Put(es: Ends, e: Node, x: ChannelEnd): Ends {
    if e == A then es.(a := x) else es.(b := x)
  }

  function Key(e: Node): SidePort {
    if e == A then Local(1) else Remote(1)
  }

  function Table(e: Node, p: Option<Port>): Mux {
    match p
    case None => Mux(map[], {}, {}, {})
    case Some(q) => Mux(map[Key(e) := q], {}, if e == A then {1} else {}, if e == B then {1} else {})
  }

  function EndpointOf(e: Node, x: ChannelEnd): Endpoint {
    Endpoint(Table(e, x.port), {}, [], [], map[0 := x.handles], map[], Out(x.wire, [], []))
  }

  function Joined(es: Ends): System {
    System(EndpointOf(A, es.a), EndpointOf(B, es.b), [Chan(A, 1, Some(Remote(1)))], false)
  }

  const PORT_A := FreshPort(0, Local(1))
  const PORT_B := FreshPort(0, Remote(1))
  const OPEN := Ends(ChannelEnd(Some(PORT_A), LIVE, []), ChannelEnd(Some(PORT_B), LIVE, []))

  /** Only A knows of the channel: asked for, and on the wire. */
  function Asked(): System {
    System(
      Endpoint(Mux(map[Local(1) := Connecting(0)], {}, {1}, {}), {}, [], [], map[], map[],
        Out([OpenPort(1, 0)], [], [])),
      EMPTY, [Chan(A, 1, None)], false)
  }

  lemma Asks()
    ensures Next(Next(Next(INIT, Allocate(A, 1)), Connect(A, 1)), Transmit(A)) == Asked()
  {
    var s1 := Next(INIT, Allocate(A, 1));
    assert {} + {1} == {1};
    assert s1 == INIT.(a := EMPTY.(held := {1}, mux := Mux(map[], {}, {1}, {})));
    var s2 := Next(s1, Connect(A, 1));
    assert {1} - {1} == {};
    assert map[][Local(1) := Connecting(0)] == map[Local(1) := Connecting(0)];
    assert [] + [OpenPort(1, 0)] == [OpenPort(1, 0)];
    assert s2.a == Asked().a.(out := Out([], [], [OpenPort(1, 0)]));
    assert [OpenPort(1, 0)][1..] == [];
    assert s2.chans == [Chan(A, 1, None)];
  }

  /** B has accepted under the requester's number. */
  function Accepted(): System {
    System(
      Asked().a.(out := Out([], [], [])),
      Endpoint(Mux(map[], {1}, {}, {1}), {}, [], [AcceptedReq(Remote(1), 1, 0)], map[], map[], Out([], [], [])),
      [Chan(A, 1, Some(Remote(1)))], false)
  }

  lemma Accepts()
    ensures Next(Next(Asked(), Deliver(B)), Accept(B, 0, Remote(1))) == Accepted()
  {
    var s := Next(Asked(), Deliver(B));
    assert {} + {1} == {1};
    assert [OpenPort(1, 0)][1..] == [];
    assert map[][0 := Waiting] == map[0 := Waiting];
    assert s.b == EMPTY.(mux := Mux(map[], {1}, {}, {}), requests := map[0 := Waiting]);
    assert map[0 := Waiting] - {0} == map[];
    assert [] + [AcceptedReq(Remote(1), 1, 0)] == [AcceptedReq(Remote(1), 1, 0)];
    assert [Chan(A, 1, None)][0 := Chan(A, 1, Some(Remote(1)))] == [Chan(A, 1, Some(Remote(1)))];
  }

  /** B's side of the open channel, its answer in the given queues. */
  function Opened(out: Out): System {
    Accepted().(b := Joined(OPEN).b.(out := out))
  }

  const ANSWER := PortOpened(1, Remote(1), 0)

  lemma Answers()
    ensures Next(Accepted(), HandleHigh(B)) == Opened(Out([], [ANSWER], []))
  {
    hide DoConnect, DoAccept, DoQueueReject, DoSend, DoClose, DoHandleNext, DoDeliver, HandleReceived, HasHandles,
      Transmitted;
    assert {1} - {1} == {};
    assert map[][Remote(1) := PORT_B] == map[Remote(1) := PORT_B];
    assert map[][0 := LIVE] == map[0 := LIVE];
    assert [AcceptedReq(Remote(1), 1, 0)][1..] == [] && [] + [ANSWER] == [ANSWER];
  }

  lemma AnswerLeaves()
    ensures Next(Opened(Out([], [ANSWER], [])), Transmit(B)) == Opened(Out([ANSWER], [], []))
  {
    hide DoConnect, DoAccept, DoQueueReject, DoSend, DoClose, DoHandleNext, DoHandleHigh, DoDeliver, HandleReceived,
      HandleEvent, HasHandles;
    assert [ANSWER][1..] == [] && [] + [ANSWER] == [ANSWER];
  }

  lemma AnswerArrives()
    ensures Next(Opened(Out([ANSWER], [], [])), Deliver(A)) == Joined(OPEN)
  {
    hide DoConnect, DoAccept, DoQueueReject, DoSend, DoClose, DoHandleNext, DoHandleHigh, HandleEvent, HasHandles,
      Transmitted;
    assert [ANSWER][1..] == [];
    assert map[Local(1) := Connecting(0)][Local(1) := PORT_A] == map[Local(1) := PORT_A];
    assert map[][0 := LIVE] == map[0 := LIVE];
  }

  /** A channel opens; both ends are connected. */
  lemma ChannelOpens() returns (steps: seq<Step>)
    ensures Run(steps) == Joined(OPEN)
  {
    steps := [];
    assert Run(steps) == INIT;
    hide Run, Next;
    steps := Then(steps, Allocate(A, 1));
    steps := Then(steps, Connect(A, 1));
    steps := Then(steps, Transmit(A));
    Asks();
    steps := Then(steps, Deliver(B));
    steps := Then(steps, Accept(B, 0, Remote(1)));
    Accepts();
    steps := Then(steps, HandleHigh(B));
    Answers();
    steps := Then(steps, Transmit(B));
    AnswerLeaves();
    steps := Then(steps, Deliver(A));
    AnswerArrives();
  }

  lemma SendsOne(s: System, e: Node, w: seq<Msg>, m: Msg)
    requires !s.failed
    ensures Next(With(s, e, Ep(s, e).(out := Out(w, [], [m]))), Transmit(e))
            == With(s, e, Ep(s, e).(out := Out(w + [m], [], [])))
  {
    hide DoConnect, DoAccept, DoQueueReject, DoSend, DoClose, DoHandleHigh, DoHandleNext, DoDeliver,
      HandleReceived, HandleEvent, HasHandles;
    assert [m][1..] == [];
  }

  lemma SenderQueued(es: Ends, e: Node)
    requires Of(es, e).handles.sender == Live
    ensures var x := Of(es, e);
            var goal := Joined(Put(es, e, x.(handles := x.handles.(sender := DropQueued))));
            Next(Next(Joined(es), DropSender(e, 0)), QueueSenderDropped(e, 0))
            == With(goal, e, Ep(goal, e).(events := [SenderDropped(Key(e), 0)]))
  {
    hide DoConnect, DoAccept, DoQueueReject, DoSend, DoClose, DoHandleNext, DoHandleHigh, DoDeliver, HandleEvent,
      HandleReceived, Transmitted, Table;
    var x := Of(es, e);
    var h1, h2 := x.handles.(sender := DropSpawned), x.handles.(sender := DropQueued);
    assert map[0 := x.handles][0 := h1] == map[0 := h1] && map[0 := h1][0 := h2] == map[0 := h2];
    assert Next(Joined(es), DropSender(e, 0)) == Joined(Put(es, e, x.(handles := h1)));
    assert [] + [SenderDropped(Key(e), 0)] == [SenderDropped(Key(e), 0)];
  }

  lemma ReceiverQueued(es: Ends, e: Node)
    requires Of(es, e).handles.receiver == Live
    ensures var x := Of(es, e);
            var goal := Joined(Put(es, e, x.(handles := x.handles.(receiver := DropQueued))));
            Next(Next(Joined(es), DropReceiver(e, 0)), QueueReceiverDropped(e, 0))
            == With(goal, e, Ep(goal, e).(events := [ReceiverDropped(Key(e), 0)]))
  {
    hide DoConnect, DoAccept, DoQueueReject, DoSend, DoClose, DoHandleNext, DoHandleHigh, DoDeliver, HandleEvent,
      HandleReceived, Transmitted, Table;
    var x := Of(es, e);
    var h1, h2 := x.handles.(receiver := DropSpawned), x.handles.(receiver := DropQueued);
    assert map[0 := x.handles][0 := h1] == map[0 := h1] && map[0 := h1][0 := h2] == map[0 := h2];
    assert Next(Joined(es), DropReceiver(e, 0)) == Joined(Put(es, e, x.(handles := h1)));
    assert [] + [ReceiverDropped(Key(e), 0)] == [ReceiverDropped(Key(e), 0)];
  }

  /** The entry of e is alive, and not yet told of the half that goes next. */
  predicate Holds(es: Ends, e: Node) {
    var p := Of(es, e).port;
    p.Some? && p.value.Connected? && p.value.remotePort == Key(e) && p.value.receiverOpen
  }

  lemma SenderHandled(es: Ends, e: Node)
    requires Holds(es, e) && !Of(es, e).port.value.senderDropped
    ensures var s, x := Joined(es), Of(es, e);
            var goal := Joined(Put(es, e, x.(port := Some(x.port.value.(senderDropped := true)))));
            Next(With(s, e, Ep(s, e).(events := [SenderDropped(Key(e), 0)])), HandleNext(e))
            == With(goal, e, Ep(goal, e).(out := Out(x.wire, [], [SendFinish(Key(e), 0)])))
  {
    hide DoConnect, DoAccept, DoQueueReject, DoSend, DoClose, DoHandleHigh, DoDeliver, HandleReceived, HasHandles,
      Transmitted, FreshKey, SetHandles,
      DoQueueSenderDropped, DoQueueReceiverDropped;
    var p := Of(es, e).port.value;
    assert map[Key(e) := p][Key(e) := p.(senderDropped := true)] == map[Key(e) := p.(senderDropped := true)];
    assert [SenderDropped(Key(e), 0)][1..] == [] && [] + [SendFinish(Key(e), 0)] == [SendFinish(Key(e), 0)];
  }

  lemma ReceiverHandled(es: Ends, e: Node)
    requires Holds(es, e) && !Of(es, e).port.value.receiverDropped
    ensures var s, x := Joined(es), Of(es, e);
            var goal := Joined(Put(es, e, x.(port := Some(x.port.value.(receiverDropped := true)))));
            Next(With(s, e, Ep(s, e).(events := [ReceiverDropped(Key(e), 0)])), HandleNext(e))
            == With(goal, e, Ep(goal, e).(out := Out(x.wire, [], [ReceiveFinish(Key(e), 0)])))
  {
    hide DoConnect, DoAccept, DoQueueReject, DoSend, DoClose, DoHandleHigh, DoDeliver, HandleReceived, HasHandles,
      Transmitted, FreshKey, SetHandles,
      DoQueueSenderDropped, DoQueueReceiverDropped;
    var p := Of(es, e).port.value;
    assert map[Key(e) := p][Key(e) := p.(receiverDropped := true)] == map[Key(e) := p.(receiverDropped := true)];
    assert [ReceiverDropped(Key(e), 0)][1..] == [] && [] + [ReceiveFinish(Key(e), 0)] == [ReceiveFinish(Key(e), 0)];
  }

  function SenderGone(x: ChannelEnd, e: Node): ChannelEnd
    requires x.port.Some? && x.port.value.Connected?
  {
    ChannelEnd(Some(x.port.value.(senderDropped := true)), x.handles.(sender := DropQueued),
      x.wire + [SendFinish(Key(e), 0)])
  }

  function ReceiverGone(x: ChannelEnd, e: Node): ChannelEnd
    requires x.port.Some? && x.port.value.Connected?
  {
    ChannelEnd(Some(x.port.value.(receiverDropped := true)), x.handles.(receiver := DropQueued),
      x.wire + [ReceiveFinish(Key(e), 0)])
  }

  lemma SenderLeaves(es: Ends, e: Node)
    requires Holds(es, e) && !Of(es, e).port.value.senderDropped && Of(es, e).handles.sender == Live
    ensures Next(Next(Next(Next(Joined(es), DropSender(e, 0)), QueueSenderDropped(e, 0)), HandleNext(e)), Transmit(e))
         == Joined(Put(es, e, SenderGone(Of(es, e), e)))
  {
    hide Next;
    var x := Of(es, e);
    var es1 := Put(es, e, x.(handles := x.handles.(sender := DropQueued)));
    var es2 := Put(es1, e, Of(es1, e).(port := Some(x.port.value.(senderDropped := true))));
    SenderQueued(es, e);
    SenderHandled(es1, e);
    SendsOne(Joined(es2), e, x.wire, SendFinish(Key(e), 0));
  }

  lemma ReceiverLeaves(es: Ends, e: Node)
    requires Holds(es, e) && !Of(es, e).port.value.receiverDropped && Of(es, e).handles.receiver == Live
    ensures Next(Next(Next(Next(Joined(es), DropReceiver(e, 0)), QueueReceiverDropped(e, 0)), HandleNext(e)),
            Transmit(e))
         == Joined(Put(es, e, ReceiverGone(Of(es, e), e)))
  {
    hide Next;
    var x := Of(es, e);
    var es1 := Put(es, e, x.(handles := x.handles.(receiver := DropQueued)));
    var es2 := Put(es1, e, Of(es1, e).(port := Some(x.port.value.(receiverDropped := true))));
    ReceiverQueued(es, e);
    ReceiverHandled(es1, e);
    SendsOne(Joined(es2), e, x.wire, ReceiveFinish(Key(e), 0));
  }

  /** Both halves of the channel at e are dropped, and the peer is told. */
  lemma DropBoth(steps: seq<Step>, es: Ends, e: Node) returns (more: seq<Step>)
    requires Run(steps) == Joined(es) && Holds(es, e) && Of(es, e).handles == LIVE
    requires !Of(es, e).port.value.senderDropped && !Of(es, e).port.value.receiverDropped
    ensures Run(more) == Joined(Put(es, e, ReceiverGone(SenderGone(Of(es, e), e), e)))
  {
    hide Run, Next, Joined;
    more := Then(steps, DropSender(e, 0));
    more := Then(more, QueueSenderDropped(e, 0));
    more := Then(more, HandleNext(e));
    more := Then(more, Transmit(e));
    SenderLeaves(es, e);
    more := Then(more, DropReceiver(e, 0));
    more := Then(more, QueueReceiverDropped(e, 0));
    more := Then(more, HandleNext(e));
    more := Then(more, Transmit(e));
    ReceiverLeaves(Put(es, e, SenderGone(Of(es, e), e)), e);
  }

  /** e learns that the peer's sender is gone. */
  lemma FirstNotice(es: Ends, e: Node)
    requires Holds(es, e) && !Of(es, e).port.value.remoteReceiverDropped
    requires Of(es, Peer(e)).wire != [] && Of(es, Peer(e)).wire[0] == SendFinish(Key(Peer(e)), 0)
    ensures var x, y := Of(es, e), Of(es, Peer(e));
            Next(Joined(es), Deliver(e))
            == Joined(Put(Put(es, Peer(e), y.(wire := y.wire[1..])), e,
              x.(port := Some(x.port.value.(receiverOpen := false)))))
  {
    hide DoConnect, DoAccept, DoQueueReject, DoSend, DoClose, DoHandleHigh, DoHandleNext, HandleEvent, HasHandles;
    var p := Of(es, e).port.value;
    assert map[Key(e) := p][Key(e) := p.(receiverOpen := false)] == map[Key(e) := p.(receiverOpen := false)];
  }

  /** With both of the peer's notices in, e has nothing left under number 1. */
  lemma SecondNotice(es: Ends, e: Node)
    requires var p := Of(es, e).port;
             p.Some? && p.value.Connected? && p.value.senderDropped && p.value.receiverDropped && !p.value.receiverOpen
    requires Of(es, Peer(e)).wire != [] && Of(es, Peer(e)).wire[0] == ReceiveFinish(Key(Peer(e)), 0)
    ensures var x, y := Of(es, e), Of(es, Peer(e));
            Next(Joined(es), Deliver(e)) == Joined(Put(Put(es, Peer(e), y.(wire := y.wire[1..])), e, x.(port := None)))
  {
    hide DoConnect, DoAccept, DoQueueReject, DoSend, DoClose, DoHandleHigh, DoHandleNext, HandleEvent, HasHandles;
    var p := Of(es, e).port.value;
    var q := p.(remoteReceiverClosed := true, remoteReceiverDropped := true);
    assert map[Key(e) := p][Key(e) := q] - {Key(e)} == map[];
    assert {1} - {1} == {};
  }

  lemma Told(steps: seq<Step>, es: Ends, e: Node) returns (more: seq<Step>)
    requires Run(steps) == Joined(es) && Holds(es, e) && !Of(es, e).port.value.remoteReceiverDropped
    requires Of(es, e).port.value.senderDropped && Of(es, e).port.value.receiverDropped
    requires Of(es, Peer(e)).wire == [SendFinish(Key(Peer(e)), 0), ReceiveFinish(Key(Peer(e)), 0)]
    ensures Run(more) == Joined(Put(Put(es, Peer(e), Of(es, Peer(e)).(wire := [])), e, Of(es, e).(port := None)))
  {
    hide Run, Next, Joined;
    var x, y := Of(es, e), Of(es, Peer(e));
    more := Then(steps, Deliver(e));
    FirstNotice(es, e);
    var es1 := Put(Put(es, Peer(e), y.(wire := y.wire[1..])), e,
      x.(port := Some(x.port.value.(receiverOpen := false))));
    more := Then(more, Deliver(e));
    SecondNotice(es1, e);
    assert y.wire[1..][1..] == [];
  }

  const GONE := ChannelEnd(None, Handles(DropQueued, DropQueued, false), [])

  /** The channel closes; both endpoints have forgotten it and its number is free again at both. */
  lemma ChannelCloses() returns (steps: seq<Step>)
    ensures Run(steps) == Joined(Ends(GONE, GONE))
    ensures forall e :: Ep(Run(steps), e).mux == EMPTY.mux
  {
    steps := ChannelOpens();
    hide Run, Joined;
    steps := DropBoth(steps, OPEN, A);
    var es1 := Put(OPEN, A, ReceiverGone(SenderGone(OPEN.a, A), A));
    steps := DropBoth(steps, es1, B);
    var es2 := Put(es1, B, ReceiverGone(SenderGone(OPEN.b, B), B));
    assert [] + [SendFinish(Key(A), 0)] + [ReceiveFinish(Key(A), 0)]
      == [SendFinish(Key(A), 0), ReceiveFinish(Key(A), 0)];
    assert [] + [SendFinish(Key(B), 0)] + [ReceiveFinish(Key(B), 0)]
      == [SendFinish(Key(B), 0), ReceiveFinish(Key(B), 0)];
    steps := Told(steps, es2, A);
    steps := Told(steps, Put(Put(es2, B, es2.b.(wire := [])), A, es2.a.(port := None)), B);
    BothEmpty();
  }

  lemma BothEmpty()
    ensures forall e :: Ep(Joined(Ends(GONE, GONE)), e).mux == EMPTY.mux
  {
  }
}
