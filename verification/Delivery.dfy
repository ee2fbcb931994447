/** From send operations to received messages. */
module Delivery {
  import opened Types
  import opened Frames
  import opened DataSender
  import opened DataReceiver

  // ---------------------------------------------------------------------------
  // Two clients of a receiver
  // ---------------------------------------------------------------------------

  /** What a client learns; long messages are gathered from their chunks. */
  datatype Outcome =
    | WholeMessage(data: Bytes)
    | LongMessage(data: Bytes)
    | CutMessage(data: Bytes)
    | PortsMessage(reqs: seq<nat>)
    | OverPortLimit
    | End

  /** The client so far: its outcomes, the receiver, the long message being gathered, whether it has stopped. */
  datatype Client = Client(outs: seq<Outcome>, s: State, acc: Option<Bytes>, ended: bool)

  function Weight(r: Receiving): nat {
    if r.Chunks? then 1 + |r.chunks| else 0
  }

  function Prepend(outs: seq<Outcome>, k: Client): Client {
    k.(outs := outs + k.outs)
  }

  /** Receives anything, and every announced chunked message to its end, until nothing is left. */
  function Drain(c: Limits, s: State, rx: seq<Frame>, acc: Option<Bytes>): Client
    decreases |rx|, Weight(s.receiving), if acc.Some? then 0 else 1
  {
    match acc
    case None =>
      var a := RecvAny(c, s, rx);
      (match a.out
       case GotData(d) => Prepend([WholeMessage(d.Content())], Drain(c, a.s, a.rx, None))
       case GotChunks => Drain(c, a.s, a.rx, Some([]))
       case GotRequests(q) => Prepend([PortsMessage(q)], Drain(c, a.s, a.rx, None))
       case TooManyPorts => Prepend([OverPortLimit], Drain(c, a.s, a.rx, None))
       case Ended => Client([End], a.s, None, true)
       case Waiting => Client([], a.s, None, false))
    case Some(got) =>
      var a := RecvChunk(s, rx);
      match a.out
      case Piece(buf) => Drain(c, a.s, a.rx, Some(got + buf))
      case NoMore => Prepend([LongMessage(got)], if a.s.finished then Client([End], a.s, None, true)
        else Drain(c, a.s, a.rx, None))
      case CutOff => Prepend([CutMessage(got)], if a.s.finished then Client([End], a.s, None, true)
        else Drain(c, a.s, a.rx, None))
      case ChunkWaiting => Client([], a.s, acc, false)
  }

  function Outs(c: Limits, r: Receiving, rx: seq<Frame>, acc: Option<Bytes>): seq<Outcome> {
    Drain(c, State(r, false), rx, acc).outs
  }

  /** What the client that only takes whole messages learns. */
  datatype Heard = HeardMessage(data: Bytes) | HeardTooLarge | HeardPortLimit | HeardEnd

  function Listen(c: Limits, s: State, rx: seq<Frame>): seq<Heard>
    decreases |rx|, Weight(s.receiving)
  {
    RecvConsumes(c, s, rx);
    var a := Recv(c, s, rx);
    match a.out
    case Message(d) => [HeardMessage(d.Content())] + Listen(c, a.s, a.rx)
    case TooLarge => [HeardTooLarge] + Listen(c, a.s, a.rx)
    case PortLimit => [HeardPortLimit] + Listen(c, a.s, a.rx)
    case Over => [HeardEnd]
    case RecvWaiting => []
  }

  /** Every report is based on a frame, or on a long message that is then dropped. */
  lemma RecvConsumes(c: Limits, s: State, rx: seq<Frame>)
    ensures var a := Recv(c, s, rx);
            && |a.rx| <= |rx|
            && (a.out.Message? || a.out.TooLarge? || a.out.PortLimit? ==>
                  |a.rx| < |rx| || (s.receiving.Chunks? && a.s.receiving == Nothing))
    decreases |rx|
  {
    RequestsConsume(c, s, rx);
    var a := RecvAny(c, s, rx);
    if a.out.GotRequests? {
      RecvConsumes(c, a.s, a.rx);
    }
  }

  // ---------------------------------------------------------------------------
  // What should be received
  // ---------------------------------------------------------------------------

  /** A message as it left the sender: in pieces, complete or cut short. */
  datatype Sent = SentData(bufs: seq<Bytes>, complete: bool) | SentPorts(groups: seq<seq<nat>>, complete: bool) {
    predicate Valid() {
      complete ==> if SentData? then bufs != [] else groups != []
    }
  }

  function FramesOf(m: Sent): seq<Frame> {
    match m
    case SentData(bufs, complete) => DataFrames(bufs, true, complete)
    case SentPorts(groups, complete) => PortFrames(groups, true, complete)
  }

  function Wire(msgs: seq<Sent>): seq<Frame> {
    if msgs == [] then [FinishedFrame] else FramesOf(msgs[0]) + Wire(msgs[1..])
  }

  predicate AllValid(msgs: seq<Sent>) {
    forall i | 0 <= i < |msgs| :: msgs[i].Valid()
  }

  /**
   The outcome of one message. `cut` holds the part of a long message that was cut short and
   whose end the client is still waiting for: the next message reveals the cut, and is itself
   then delivered in chunks, or lost if it consists of ports.
   */
  function One(c: Limits, m: Sent, cut: Option<Bytes>): (seq<Outcome>, Option<Bytes>) {
    match m
    case SentData(bufs, complete) =>
      var data := Flatten(bufs);
      if bufs == [] then ([], cut)
      else if cut.None? && |data| <= c.maxDataSize then (if complete then [WholeMessage(data)] else [], None)
      else
        ((if cut.Some? then [CutMessage(cut.value)] else []) + (if complete then [LongMessage(data)] else []),
         if complete then None else Some(data))
    case SentPorts(groups, complete) =>
      var reqs := Flatten(groups);
      if groups == [] then ([], cut)
      else if cut.Some? then ([CutMessage(cut.value)], None)
      else (if |reqs| > c.maxPorts then [OverPortLimit] else if complete then [PortsMessage(reqs)] else [], None)
  }

  /** The outcome of a list of messages. */
  function Expect(c: Limits, msgs: seq<Sent>, cut: Option<Bytes>): seq<Outcome> {
    if msgs == [] then (if cut.Some? then [CutMessage(cut.value)] else []) + [End]
    else One(c, msgs[0], cut).0 + Expect(c, msgs[1..], One(c, msgs[0], cut).1)
  }

  /** The same for the client of whole messages, which a cut never confuses. */
  function ExpectHeard(c: Limits, msgs: seq<Sent>): seq<Heard> {
    if msgs == [] then [HeardEnd] else HeardOf(c, msgs[0]) + ExpectHeard(c, msgs[1..])
  }

  function HeardOf(c: Limits, m: Sent): seq<Heard> {
    match m
    case SentData(bufs, complete) =>
      if |Flatten(bufs)| > c.maxDataSize then [HeardTooLarge]
      else if complete then [HeardMessage(Flatten(bufs))] else []
    case SentPorts(groups, _) =>
      if |Flatten(groups)| > c.maxPorts then [HeardPortLimit] else []
  }

  // ---------------------------------------------------------------------------
  // Single frames
  // ---------------------------------------------------------------------------

  /** Nothing that was begun before matters at the start of a message or at the end. */
  predicate Boundary(rx: seq<Frame>) {
    rx != [] && match rx[0]
    case DataFrame(_, first, _) => first
    case PortsFrame(_, first, _) => first
    case ReportFrame => false
    case FinishedFrame => true
  }

  lemma BoundaryForgets(c: Limits, r: Receiving, rx: seq<Frame>)
    requires Boundary(rx) && !r.Chunks?
    ensures Outs(c, r, rx, None) == Outs(c, Nothing, rx, None)
  {
  }

  lemma SameCall(c: Limits, s: State, rx: seq<Frame>, s': State, rx': seq<Frame>)
    requires RecvAny(c, s, rx) == RecvAny(c, s', rx')
    ensures Drain(c, s, rx, None) == Drain(c, s', rx', None)
  {
  }

  /** One call of the receiver, as seen in the outcomes. */
  lemma OutsStep(c: Limits, r: Receiving, rx: seq<Frame>)
    requires !r.Chunks?
    ensures var a := AnyLoop(c, r, rx);
            && (a.out.GotData? ==>
                 Outs(c, r, rx, None) == [WholeMessage(a.out.buf.Content())] + Drain(c, a.s, a.rx, None).outs)
            && (a.out.GotChunks? ==> Outs(c, r, rx, None) == Drain(c, a.s, a.rx, Some([])).outs)
            && (a.out.GotRequests? ==>
                 Outs(c, r, rx, None) == [PortsMessage(a.out.reqs)] + Drain(c, a.s, a.rx, None).outs)
            && (a.out.TooManyPorts? ==> Outs(c, r, rx, None) == [OverPortLimit] + Drain(c, a.s, a.rx, None).outs)
  {
    hide AnyLoop, RecvChunk;
    assert RecvAny(c, State(r, false), rx) == AnyLoop(c, r, rx);
  }

  lemma WireBoundary(msgs: seq<Sent>)
    ensures Boundary(Wire(msgs))
  {
  }

  // ---------------------------------------------------------------------------
  // Pieces of one message
  // ---------------------------------------------------------------------------

  /** Chunks at hand are handed out one after the other. */
  lemma {:induction false} ChunksAtHand(c: Limits, chunks: seq<Bytes>, done: bool, told: bool, rx: seq<Frame>,
          acc: Bytes)
    requires chunks != []
    ensures Outs(c, Chunks(chunks, done, told), rx, Some(acc))
            == Outs(c, Chunks([], done, true), rx, Some(acc + Flatten(chunks)))
    decreases |chunks|
  {
    var s := State(Chunks(chunks, done, told), false);
    assert RecvChunk(s, rx) == ChunkResult(State(Chunks(chunks[1..], done, true), false), rx, Piece(chunks[0]));
    assert (acc + chunks[0]) + Flatten(chunks[1..]) == acc + Flatten(chunks);
    if |chunks| > 1 {
      ChunksAtHand(c, chunks[1..], done, true, rx, acc + chunks[0]);
    } else {
      assert chunks[1..] == [] && (acc + chunks[0]) + [] == acc + chunks[0];
    }
  }

  /** A long message in reception is gathered to its end, or up to where it was cut. */
  lemma {:induction false} LongTail(c: Limits, bufs: seq<Bytes>, last: bool, rest: seq<Frame>, acc: Bytes)
    requires last ==> bufs != []
    ensures Outs(c, Chunks([], false, true), DataFrames(bufs, false, last) + rest, Some(acc))
         == if last then [LongMessage(acc + Flatten(bufs))] + Outs(c, Nothing, rest, None)
            else Outs(c, Chunks([], false, true), rest, Some(acc + Flatten(bufs)))
    decreases |bufs|
  {
    var rx := DataFrames(bufs, false, last) + rest;
    if bufs == [] {
      assert rx == rest && acc + [] == acc;
    } else {
      var done := last && |bufs| == 1;
      assert rx[1..] == DataFrames(bufs[1..], false, last) + rest;
      assert RecvChunk(State(Chunks([], false, true), false), rx)
          == ChunkResult(State(Chunks([], done, true), false), rx[1..], Piece(bufs[0]));
      assert (acc + bufs[0]) + Flatten(bufs[1..]) == acc + Flatten(bufs);
      if done {
        assert rx[1..] == rest && (acc + bufs[0]) + [] == acc + bufs[0];
        LongEnd(c, rest, acc + bufs[0]);
      } else {
        LongTail(c, bufs[1..], last, rest, acc + bufs[0]);
      }
    }
  }

  lemma LongEnd(c: Limits, rx: seq<Frame>, acc: Bytes)
    ensures Outs(c, Chunks([], true, true), rx, Some(acc)) == [LongMessage(acc)] + Outs(c, Nothing, rx, None)
  {
  }

  /** What the rest of a message leads to, given what has arrived of it. */
  function AfterData(c: Limits, all: Bytes, last: bool, rest: seq<Frame>): seq<Outcome> {
    if |all| <= c.maxDataSize then (if last then [WholeMessage(all)] else []) + Outs(c, Nothing, rest, None)
    else if last then [LongMessage(all)] + Outs(c, Nothing, rest, None)
    else Outs(c, Chunks([], false, true), rest, Some(all))
  }

  /** The piece that exceeds the limit turns the message into a long one. */
  lemma LongStart(c: Limits, chunks: seq<Bytes>, bufs: seq<Bytes>, last: bool, rest: seq<Frame>, told: bool)
    requires chunks != []
    ensures var done := last && bufs == [];
            var all := Flatten(chunks) + Flatten(bufs);
            Outs(c, Chunks(chunks, done, told), DataFrames(bufs, false, last) + rest, Some([]))
            == if last then [LongMessage(all)] + Outs(c, Nothing, rest, None)
              else Outs(c, Chunks([], false, true), rest, Some(all))
  {
    var done := last && bufs == [];
    var rx := DataFrames(bufs, false, last) + rest;
    ChunksAtHand(c, chunks, done, told, rx, []);
    assert [] + Flatten(chunks) == Flatten(chunks);
    if done {
      assert rx == rest;
      assert Flatten(chunks) + [] == Flatten(chunks);
      LongEnd(c, rest, Flatten(chunks));
    } else {
      LongTail(c, bufs, last, rest, Flatten(chunks));
    }
  }

  lemma {:induction false} DataTail(c: Limits, d: DataBuf, bufs: seq<Bytes>, last: bool, rest: seq<Frame>)
    requires d.Valid() && |d.Content()| <= c.maxDataSize && (last ==> bufs != []) && Boundary(rest)
    ensures Outs(c, Data(d), DataFrames(bufs, false, last) + rest, None)
            == AfterData(c, d.Content() + Flatten(bufs), last, rest)
    decreases |bufs|
  {
    var rx := DataFrames(bufs, false, last) + rest;
    if bufs == [] {
      assert rx == rest && d.Content() + [] == d.Content();
      BoundaryForgets(c, Data(d), rest);
    } else {
      var done := last && |bufs| == 1;
      var tail := DataFrames(bufs[1..], false, last) + rest;
      assert rx[1..] == tail && rx[0] == DataFrame(bufs[0], false, done);
      assert d.Content() + Flatten(bufs) == (d.Content() + bufs[0]) + Flatten(bufs[1..]);
      match TryPush(d, bufs[0], c.maxDataSize)
      case None =>
        FlattenAppend(d.bufs, bufs[0]);
        LongStart(c, d.bufs + [bufs[0]], bufs[1..], last, rest, true);
      case Some(d') =>
        if done {
          assert tail == rest;
          assert d'.Content() + [] == d'.Content();
        } else {
          SameCall(c, State(Data(d), false), rx, State(Data(d'), false), tail);
          DataTail(c, d', bufs[1..], last, rest);
        }
    }
  }

  lemma WholeData(c: Limits, m: Sent, rest: seq<Frame>)
    requires m.SentData? && m.Valid() && Boundary(rest)
    ensures Outs(c, Nothing, FramesOf(m) + rest, None) == AfterData(c, Flatten(m.bufs), m.complete, rest)
  {
    var rx := FramesOf(m) + rest;
    if m.bufs == [] {
      assert rx == rest;
    } else {
      var rx' := DataFrames(m.bufs, false, m.complete) + rest;
      assert rx[1..] == rx'[1..];
      SameCall(c, State(Nothing, false), rx, State(Data(EMPTY_BUF), false), rx');
      DataTail(c, EMPTY_BUF, m.bufs, m.complete, rest);
      assert [] + Flatten(m.bufs) == Flatten(m.bufs);
    }
  }

  lemma CutSeenByData(c: Limits, got: Bytes, b: Bytes, done: bool, rx: seq<Frame>)
    ensures Outs(c, Chunks([], false, true), [DataFrame(b, true, done)] + rx, Some(got))
         == [CutMessage(got)] + Outs(c, Chunks([b], done, false), rx, None)
  {
    var all := [DataFrame(b, true, done)] + rx;
    assert all[1..] == rx;
    assert RecvChunk(State(Chunks([], false, true), false), all)
      == ChunkResult(State(Chunks([b], done, false), false), rx, CutOff);
    hide RecvAny, ChunkLoop, AnyLoop, RecvChunk;
  }

  /** A chunk at hand is announced before anything else is received. */
  lemma Announced(c: Limits, b: Bytes, done: bool, rx: seq<Frame>)
    ensures Outs(c, Chunks([b], done, false), rx, None) == Outs(c, Chunks([b], done, true), rx, Some([]))
  {
    assert RecvAny(c, State(Chunks([b], done, false), false), rx)
      == AnyResult(State(Chunks([b], done, true), false), rx, GotChunks);
    hide RecvAny, ChunkLoop, AnyLoop, RecvChunk;
  }

  /** After a cut the client learns of it, and then gets the next message in chunks. */
  lemma DataAfterCut(c: Limits, m: Sent, rest: seq<Frame>, got: Bytes)
    requires m.SentData? && m.bufs != []
    ensures var data := Flatten(m.bufs);
            Outs(c, Chunks([], false, true), FramesOf(m) + rest, Some(got))
            == [CutMessage(got)]
               + if m.complete then [LongMessage(data)] + Outs(c, Nothing, rest, None)
                 else Outs(c, Chunks([], false, true), rest, Some(data))
  {
    hide Drain, Outs;
    var b := m.bufs[0];
    var done := m.complete && |m.bufs| == 1;
    var tail := DataFrames(m.bufs[1..], false, m.complete);
    assert FramesOf(m) == [DataFrame(b, true, done)] + tail;
    hide FramesOf, DataFrames;
    assert ([DataFrame(b, true, done)] + tail) + rest == [DataFrame(b, true, done)] + (tail + rest);
    CutSeenByData(c, got, b, done, tail + rest);
    Announced(c, b, done, tail + rest);
    FlattenOne(b);
    LongStart(c, [b], m.bufs[1..], m.complete, rest, true);
  }

  // ---------------------------------------------------------------------------
  // Ports
  // ---------------------------------------------------------------------------

  function AfterPorts(c: Limits, all: seq<nat>, last: bool, rest: seq<Frame>): seq<Outcome> {
    (if |all| > c.maxPorts then [OverPortLimit] else if last then [PortsMessage(all)] else [])
      + Outs(c, Nothing, rest, None)
  }

  /** Ports that belong to no message in reception are passed over. */
  lemma {:induction false} PortsIgnored(c: Limits, groups: seq<seq<nat>>, last: bool, rest: seq<Frame>)
    ensures Outs(c, Nothing, PortFrames(groups, false, last) + rest, None) == Outs(c, Nothing, rest, None)
    decreases |groups|
  {
    var rx := PortFrames(groups, false, last) + rest;
    if groups == [] {
      assert rx == rest;
    } else {
      assert rx[1..] == PortFrames(groups[1..], false, last) + rest;
      SameCall(c, State(Nothing, false), rx, State(Nothing, false), rx[1..]);
      PortsIgnored(c, groups[1..], last, rest);
    }
  }

  lemma {:induction false} PortsTail(c: Limits, q: seq<nat>, groups: seq<seq<nat>>, last: bool, rest: seq<Frame>)
    requires |q| <= c.maxPorts && (last ==> groups != []) && Boundary(rest)
    ensures Outs(c, Requests(q), PortFrames(groups, false, last) + rest, None)
            == AfterPorts(c, q + Flatten(groups), last, rest)
    decreases |groups|
  {
    var rx := PortFrames(groups, false, last) + rest;
    if groups == [] {
      assert rx == rest && q + [] == q;
      BoundaryForgets(c, Requests(q), rest);
    } else {
      var done := last && |groups| == 1;
      var tail := PortFrames(groups[1..], false, last) + rest;
      assert rx[1..] == tail && rx[0] == PortsFrame(groups[0], false, done);
      assert q + Flatten(groups) == (q + groups[0]) + Flatten(groups[1..]);
      OutsStep(c, Requests(q), rx);
      if |q + groups[0]| > c.maxPorts {
        PortsIgnored(c, groups[1..], last, rest);
        hide Drain;
      } else if done {
        assert tail == rest;
        assert (q + groups[0]) + [] == q + groups[0];
        hide Drain;
      } else {
        SameCall(c, State(Requests(q), false), rx, State(Requests(q + groups[0]), false), tail);
        PortsTail(c, q + groups[0], groups[1..], last, rest);
        hide Drain;
      }
    }
  }

  lemma WholePorts(c: Limits, m: Sent, rest: seq<Frame>)
    requires m.SentPorts? && m.Valid() && Boundary(rest)
    ensures Outs(c, Nothing, FramesOf(m) + rest, None) == AfterPorts(c, Flatten(m.groups), m.complete, rest)
  {
    var rx := FramesOf(m) + rest;
    if m.groups == [] {
      assert rx == rest;
    } else {
      var rx' := PortFrames(m.groups, false, m.complete) + rest;
      assert rx[1..] == rx'[1..];
      SameCall(c, State(Nothing, false), rx, State(Requests([]), false), rx');
      PortsTail(c, [], m.groups, m.complete, rest);
      assert [] + Flatten(m.groups) == Flatten(m.groups);
    }
  }

  lemma CutSeen(c: Limits, got: Bytes, rx: seq<Frame>)
    requires rx != [] && rx[0].PortsFrame?
    ensures Outs(c, Chunks([], false, true), rx, Some(got)) == [CutMessage(got)] + Outs(c, Nothing, rx[1..], None)
  {
    assert RecvChunk(State(Chunks([], false, true), false), rx) == ChunkResult(State(Nothing, false), rx[1..], CutOff);
    hide RecvAny, ChunkLoop, AnyLoop, RecvChunk;
  }

  /** Ports that reveal a cut are lost. */
  lemma PortsAfterCut(c: Limits, m: Sent, rest: seq<Frame>, got: Bytes)
    requires m.SentPorts? && m.groups != []
    ensures Outs(c, Chunks([], false, true), FramesOf(m) + rest, Some(got))
            == [CutMessage(got)] + Outs(c, Nothing, rest, None)
  {
    hide Drain, Outs, Flatten;
    var first := PortsFrame(m.groups[0], true, m.complete && |m.groups| == 1);
    var tail := PortFrames(m.groups[1..], false, m.complete);
    assert FramesOf(m) == [first] + tail;
    hide FramesOf, PortFrames;
    assert ([first] + tail) + rest == [first] + (tail + rest);
    CutSeen(c, got, [first] + (tail + rest));
    assert ([first] + (tail + rest))[1..] == tail + rest;
    PortsIgnored(c, m.groups[1..], m.complete, rest);
  }

  // ---------------------------------------------------------------------------
  // Every list of messages
  // ---------------------------------------------------------------------------

  /** The client goes on, waiting for the end of a cut message if there is one. */
  function Resume(c: Limits, cut: Option<Bytes>, rx: seq<Frame>): seq<Outcome> {
    if cut.None? then Outs(c, Nothing, rx, None) else Outs(c, Chunks([], false, true), rx, cut)
  }

  lemma OneDelivered(c: Limits, m: Sent, rx: seq<Frame>, cut: Option<Bytes>)
    requires m.Valid() && Boundary(rx)
    ensures Resume(c, cut, FramesOf(m) + rx) == One(c, m, cut).0 + Resume(c, One(c, m, cut).1, rx)
  {
    hide Drain, Outs, Flatten;
    if (m.SentData? && m.bufs == []) || (m.SentPorts? && m.groups == []) {
      assert FramesOf(m) + rx == rx;
    } else if m.SentData? {
      if cut.None? { WholeData(c, m, rx); } else { DataAfterCut(c, m, rx, cut.value); }
    } else {
      if cut.None? { WholePorts(c, m, rx); } else { PortsAfterCut(c, m, rx, cut.value); }
    }
  }

  lemma {:induction false} Delivered(c: Limits, msgs: seq<Sent>, cut: Option<Bytes>)
    requires AllValid(msgs)
    ensures Resume(c, cut, Wire(msgs)) == Expect(c, msgs, cut)
    decreases |msgs|
  {
    if msgs != [] {
      hide Drain, Outs, One, Resume;
      var m, rest := msgs[0], msgs[1..];
      WireBoundary(rest);
      OneDelivered(c, m, Wire(rest), cut);
      Delivered(c, rest, One(c, m, cut).1);
    }
  }
}
