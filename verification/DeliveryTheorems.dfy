/** End-to-end delivery: every operation, every schedule of credits, arrivals and waits. */
module DeliveryTheorems {
  import opened Types
  import opened Frames
  import opened DataSender
  import opened DataReceiver
  import opened Delivery

  // ---------------------------------------------------------------------------
  // Sending
  // ---------------------------------------------------------------------------

  /** Performs operations as an application does, part by part. */
  method Perform(sender: Sender, op: Op) returns (ok: bool)
    requires sender.chunkSize > 0
    modifies sender
    ensures var r := EmitOp(op, sender.chunkSize, old(sender.waits));
            && ok == r.done && sender.waits == r.waits
            && sender.sent == old(sender.sent) + DataFrames(r.bufs, true, ok)
  {
    match op
    case Whole(data) => ok := sender.Send(data);
    case Try(data, creditsThere, room) => ok := sender.TrySend(data, creditsThere, room);
      assert data == [] ==> [data] == [[]];
    case Streamed(parts, ending) =>
      ok := Stream(sender, parts, ending);
  }

  method Stream(sender: Sender, parts: seq<Bytes>, ending: Ending) returns (ok: bool)
    requires sender.chunkSize > 0
    modifies sender
    ensures var r := EmitOp(Streamed(parts, ending), sender.chunkSize, old(sender.waits));
            && ok == r.done && sender.waits == r.waits
            && sender.sent == old(sender.sent) + DataFrames(r.bufs, true, ok)
  {
    hide EmitPart, Flatten, DataFrames, EmitParts, After;
    var chunks := new ChunkSender(sender);
    AfterNothing(EmitParts(parts, sender.chunkSize, 0, sender.waits));
    var rest := parts;
    ghost var bufs: seq<Bytes> := [];
    assert DataFrames([], true, false) == [];
    while rest != []
      invariant chunks.sender == sender && fresh(chunks)
      invariant EmitParts(parts, sender.chunkSize, 0, old(sender.waits))
             == After(bufs, EmitParts(rest, sender.chunkSize, chunks.credits, sender.waits))
      invariant sender.sent == old(sender.sent) + DataFrames(bufs, true, false)
      invariant chunks.first <==> bufs == []
      decreases |rest|
    {
      ghost var a := EmitPart(rest[0], sender.chunkSize, chunks.credits, sender.waits);
      PartsStep(bufs, rest, sender.chunkSize, chunks.credits, sender.waits);
      DataFramesConcat(bufs, a.bufs, true, false);
      var sentPart := chunks.SendPart(rest[0], false);
      if !sentPart {
        return false;
      }
      bufs := bufs + a.bufs;
      rest := rest[1..];
    }
    AllParts(bufs, sender.chunkSize, chunks.credits, sender.waits);
    if ending == Dropped {
      return false;
    }
    ghost var b := EmitPart(if ending.Final? then ending.data else [], sender.chunkSize, chunks.credits, sender.waits);
    DataFramesConcat(bufs, b.bufs, true, b.done);
    ok := chunks.SendPart(if ending.Final? then ending.data else [], true);
  }

  lemma AfterNothing(r: Emitted)
    ensures After([], r) == r
  {
    assert [] + r.bufs == r.bufs;
  }

  lemma AllParts(bufs: seq<Bytes>, chunk: nat, credits: nat, waits: Waits)
    requires chunk > 0
    ensures After(bufs, EmitParts([], chunk, credits, waits)) == Emitted(bufs, credits, waits, true)
  {
    assert bufs + [] == bufs;
  }

  lemma PartsStep(bufs: seq<Bytes>, parts: seq<Bytes>, chunk: nat, credits: nat, waits: Waits)
    requires chunk > 0 && parts != []
    ensures var a := EmitPart(parts[0], chunk, credits, waits);
            After(bufs, EmitParts(parts, chunk, credits, waits))
            == if !a.done then a.(bufs := bufs + a.bufs)
              else After(bufs + a.bufs, EmitParts(parts[1..], chunk, a.credits, a.waits))
  {
    hide EmitPart;
    var a := EmitPart(parts[0], chunk, credits, waits);
    if a.done {
      var b := EmitParts(parts[1..], chunk, a.credits, a.waits);
      assert bufs + (a.bufs + b.bufs) == (bufs + a.bufs) + b.bufs;
    }
  }

  /** What a sequence of operations puts on the wire. */
  function SentBy(ops: seq<Op>, chunk: nat, waits: Waits): (msgs: seq<Sent>)
    requires chunk > 0
    ensures |msgs| == |ops| && AllValid(msgs)
    ensures forall i | 0 <= i < |ops| ::
              msgs[i].SentData? && Flatten(msgs[i].bufs) <= Content(ops[i])
              && (msgs[i].complete ==> Flatten(msgs[i].bufs) == Content(ops[i]))
    decreases |ops|
  {
    if ops == [] then []
    else
      var r := EmitOp(ops[0], chunk, waits);
      [SentData(r.bufs, r.done)] + SentBy(ops[1..], chunk, r.waits)
  }

  /** Performing operations one after the other puts exactly these messages on the wire. */
  method PerformAll(sender: Sender, ops: seq<Op>)
    requires sender.chunkSize > 0
    modifies sender
    ensures sender.sent + [FinishedFrame] == old(sender.sent) + Wire(SentBy(ops, sender.chunkSize, old(sender.waits)))
  {
    hide EmitOp, DataFrames;
    var rest := ops;
    ghost var msgs := SentBy(ops, sender.chunkSize, sender.waits);
    while rest != []
      invariant sender.sent + Wire(SentBy(rest, sender.chunkSize, sender.waits)) == old(sender.sent) + Wire(msgs)
      decreases |rest|
    {
      ghost var r := EmitOp(rest[0], sender.chunkSize, sender.waits);
      ghost var more := SentBy(rest[1..], sender.chunkSize, r.waits);
      assert SentBy(rest, sender.chunkSize, sender.waits)[1..] == more;
      ghost var before := sender.sent;
      var ok := Perform(sender, rest[0]);
      assert before + (DataFrames(r.bufs, true, ok) + Wire(more)) == sender.sent + Wire(more);
      rest := rest[1..];
    }
  }

  // ---------------------------------------------------------------------------
  // Sending and receiving
  // ---------------------------------------------------------------------------

  function Received(c: Limits, rx: seq<Frame>): seq<Outcome> {
    Outs(c, Nothing, rx, None)
  }

  /** For all operations, chunk sizes and waits, the outcome is determined by what was sent complete or cut. */
  lemma EndToEnd(c: Limits, ops: seq<Op>, chunk: nat, waits: Waits)
    requires chunk > 0
    ensures Received(c, Wire(SentBy(ops, chunk, waits))) == Expect(c, SentBy(ops, chunk, waits), None)
  {
    Delivered(c, SentBy(ops, chunk, waits), None);
  }

  function Completed(ops: seq<Op>, msgs: seq<Sent>): seq<Outcome>
    requires |ops| == |msgs|
    decreases |ops|
  {
    if ops == [] then []
    else (if msgs[0].complete then [WholeMessage(Content(ops[0]))] else []) + Completed(ops[1..], msgs[1..])
  }

  /** When no message exceeds the limit, exactly those that were completed arrive, in order and unchanged. */
  lemma {:induction false} CompletedArrive(c: Limits, ops: seq<Op>, chunk: nat, waits: Waits)
    requires chunk > 0 && forall i | 0 <= i < |ops| :: |Content(ops[i])| <= c.maxDataSize
    ensures Received(c, Wire(SentBy(ops, chunk, waits))) == Completed(ops, SentBy(ops, chunk, waits)) + [End]
  {
    EndToEnd(c, ops, chunk, waits);
    AllFit(c, ops, chunk, waits);
  }

  lemma {:induction false} AllFit(c: Limits, ops: seq<Op>, chunk: nat, waits: Waits)
    requires chunk > 0 && forall i | 0 <= i < |ops| :: |Content(ops[i])| <= c.maxDataSize
    ensures Expect(c, SentBy(ops, chunk, waits), None) == Completed(ops, SentBy(ops, chunk, waits)) + [End]
    decreases |ops|
  {
    if ops != [] {
      var r := EmitOp(ops[0], chunk, waits);
      var msgs := SentBy(ops, chunk, waits);
      assert msgs[0] == SentData(r.bufs, r.done) && msgs[1..] == SentBy(ops[1..], chunk, r.waits);
      hide EmitOp;
      AllFit(c, ops[1..], chunk, r.waits);
    }
  }

  // ---------------------------------------------------------------------------
  // What a cut does to the next message
  // ---------------------------------------------------------------------------

  /** The long message left unfinished by a list of messages, if any. */
  function CutAfter(c: Limits, msgs: seq<Sent>, cut: Option<Bytes>): Option<Bytes> {
    if msgs == [] then cut else CutAfter(c, msgs[1..], One(c, msgs[0], cut).1)
  }

  function ExpectSoFar(c: Limits, msgs: seq<Sent>, cut: Option<Bytes>): seq<Outcome> {
    if msgs == [] then [] else One(c, msgs[0], cut).0 + ExpectSoFar(c, msgs[1..], One(c, msgs[0], cut).1)
  }

  lemma {:induction false} ExpectSplit(c: Limits, a: seq<Sent>, b: seq<Sent>, cut: Option<Bytes>)
    ensures Expect(c, a + b, cut) == ExpectSoFar(c, a, cut) + Expect(c, b, CutAfter(c, a, cut))
    decreases |a|
  {
    if a == [] {
      assert a + b == b;
    } else {
      assert (a + b)[1..] == a[1..] + b;
      ExpectSplit(c, a[1..], b, One(c, a[0], cut).1);
    }
  }

  /** What message `m` adds to the outcome when it follows `before`. */
  function Contribution(c: Limits, before: seq<Sent>, m: Sent): seq<Outcome> {
    One(c, m, CutAfter(c, before, None)).0
  }

  lemma InContext(c: Limits, before: seq<Sent>, m: Sent, after: seq<Sent>)
    requires AllValid(before + [m] + after)
    ensures Received(c, Wire(before + [m] + after))
         == ExpectSoFar(c, before, None) + Contribution(c, before, m)
            + Expect(c, after, One(c, m, CutAfter(c, before, None)).1)
  {
    hide One, Received;
    assert before + [m] + after == before + ([m] + after);
    Delivered(c, before + ([m] + after), None);
    ExpectSplit(c, before, [m] + after, None);
    assert ([m] + after)[1..] == after;
    ReceivedIsResume(c, Wire(before + ([m] + after)));
  }

  lemma ReceivedIsResume(c: Limits, rx: seq<Frame>)
    ensures Received(c, rx) == Resume(c, None, rx)
  {
  }

  /**
   A complete message arrives whole exactly if it fits and no long message was left cut
   right before it; otherwise it arrives in chunks, however small it is.
   */
  lemma WholeExactlyIf(c: Limits, before: seq<Sent>, m: Sent, after: seq<Sent>)
    requires m.SentData? && m.Valid() && m.complete && AllValid(before + [m] + after)
    ensures Received(c, Wire(before + [m] + after))
         == ExpectSoFar(c, before, None) + Contribution(c, before, m) + Expect(c, after, None)
    ensures var whole := |Flatten(m.bufs)| <= c.maxDataSize && CutAfter(c, before, None).None?;
            && (whole ==> Contribution(c, before, m) == [WholeMessage(Flatten(m.bufs))])
            && (!whole ==> Contribution(c, before, m) != []
                           && Contribution(c, before, m)[|Contribution(c, before, m)| - 1]
                                == LongMessage(Flatten(m.bufs)))
  {
    InContext(c, before, m, after);
  }

  /** Ports arrive exactly if they are within the limit and no long message was left cut right before them. */
  lemma PortsExactlyIf(c: Limits, before: seq<Sent>, m: Sent, after: seq<Sent>)
    requires m.SentPorts? && m.Valid() && m.complete && AllValid(before + [m] + after)
    ensures Received(c, Wire(before + [m] + after))
         == ExpectSoFar(c, before, None) + Contribution(c, before, m) + Expect(c, after, None)
    ensures var arrive := |Flatten(m.groups)| <= c.maxPorts && CutAfter(c, before, None).None?;
            && (arrive ==> Contribution(c, before, m) == [PortsMessage(Flatten(m.groups))])
            && (!arrive ==> |Contribution(c, before, m)| == 1 && !Contribution(c, before, m)[0].PortsMessage?)
  {
    InContext(c, before, m, after);
  }

  /** The smallest case: a cut message of two bytes makes a message of one byte arrive in chunks. */
  lemma SmallAfterCut()
    ensures var wire := Wire([SentData([[0, 0]], false), SentData([[7]], true)]);
            Received(Limits(1, 1), wire) == [CutMessage([0, 0]), LongMessage([7]), End]
  {
    var c := Limits(1, 1);
    var msgs := [SentData([[0, 0]], false), SentData([[7]], true)];
    FlattenOne<u8>([0, 0]);
    FlattenOne<u8>([7]);
    Delivered(c, msgs, None);
    assert One(c, msgs[0], None) == ([], Some([0, 0]));
    assert [CutMessage([0, 0])] + [LongMessage([7])] == [CutMessage([0, 0]), LongMessage([7])];
    assert One(c, msgs[1], Some([0, 0])) == ([CutMessage([0, 0]), LongMessage([7])], None);
    assert msgs[1..] == [msgs[1]] && msgs[1..][1..] == [];
  }

  // ---------------------------------------------------------------------------
  // The client of whole messages
  // ---------------------------------------------------------------------------

  lemma ListenStep(c: Limits, r: Receiving, rx: seq<Frame>)
    requires !r.Chunks?
    ensures var a := AnyLoop(c, r, rx);
            Listen(c, State(r, false), rx)
            == match a.out
               case GotData(d) => [HeardMessage(d.Content())] + Listen(c, a.s, a.rx)
               case GotChunks => [HeardTooLarge] + Listen(c, State(Nothing, false), a.rx)
               case GotRequests(_) => Listen(c, a.s, a.rx)
               case TooManyPorts => [HeardPortLimit] + Listen(c, a.s, a.rx)
               case Ended => [HeardEnd]
               case Waiting => []
  {
    ChunksAnnounced(c, r, rx);
    hide AnyLoop;
    var s := State(r, false);
    assert RecvAny(c, s, rx) == AnyLoop(c, r, rx);
  }

  lemma ChunksAnnounced(c: Limits, r: Receiving, rx: seq<Frame>)
    ensures var a := AnyLoop(c, r, rx);
            a.out.GotChunks? ==> a.s.receiving.Chunks? && a.s.receiving.announced && !a.s.finished
    decreases |rx|
  {
  }

  function Hears(c: Limits, r: Receiving, rx: seq<Frame>): seq<Heard> {
    Listen(c, State(r, false), rx)
  }

  lemma HearBoundary(c: Limits, r: Receiving, rx: seq<Frame>)
    requires Boundary(rx) && !r.Chunks?
    ensures Hears(c, r, rx) == Hears(c, Nothing, rx)
  {
    ListenStep(c, r, rx);
    ListenStep(c, Nothing, rx);
    hide Listen;
  }

  /** A frame that only changes what has been put together so far. */
  lemma HearOn(c: Limits, r: Receiving, rx: seq<Frame>, r': Receiving, rx': seq<Frame>)
    requires !r.Chunks? && !r'.Chunks? && AnyLoop(c, r, rx) == AnyLoop(c, r', rx')
    ensures Hears(c, r, rx) == Hears(c, r', rx')
  {
    ListenStep(c, r, rx);
    ListenStep(c, r', rx');
    hide Listen, AnyLoop;
  }

  lemma {:induction false} HearDataIgnored(c: Limits, bufs: seq<Bytes>, last: bool, rest: seq<Frame>)
    ensures Hears(c, Nothing, DataFrames(bufs, false, last) + rest) == Hears(c, Nothing, rest)
    decreases |bufs|
  {
    var rx := DataFrames(bufs, false, last) + rest;
    if bufs == [] {
      assert rx == rest;
    } else {
      assert rx[1..] == DataFrames(bufs[1..], false, last) + rest;
      HearOn(c, Nothing, rx, Nothing, rx[1..]);
      HearDataIgnored(c, bufs[1..], last, rest);
    }
  }

  lemma {:induction false} HearPortsIgnored(c: Limits, groups: seq<seq<nat>>, last: bool, rest: seq<Frame>)
    ensures Hears(c, Nothing, PortFrames(groups, false, last) + rest) == Hears(c, Nothing, rest)
    decreases |groups|
  {
    var rx := PortFrames(groups, false, last) + rest;
    if groups == [] {
      assert rx == rest;
    } else {
      assert rx[1..] == PortFrames(groups[1..], false, last) + rest;
      HearOn(c, Nothing, rx, Nothing, rx[1..]);
      HearPortsIgnored(c, groups[1..], last, rest);
    }
  }

  lemma {:induction false} HearData(c: Limits, d: DataBuf, bufs: seq<Bytes>, last: bool, rest: seq<Frame>)
    requires d.Valid() && |d.Content()| <= c.maxDataSize && (last ==> bufs != []) && Boundary(rest)
    ensures var all := d.Content() + Flatten(bufs);
            Hears(c, Data(d), DataFrames(bufs, false, last) + rest)
            == (if |all| > c.maxDataSize then [HeardTooLarge] else if last then [HeardMessage(all)] else [])
               + Hears(c, Nothing, rest)
    decreases |bufs|
  {
    var rx := DataFrames(bufs, false, last) + rest;
    if bufs == [] {
      assert rx == rest && d.Content() + [] == d.Content();
      HearBoundary(c, Data(d), rest);
    } else {
      var tail := DataFrames(bufs[1..], false, last) + rest;
      assert rx[1..] == tail && rx[0] == DataFrame(bufs[0], false, last && |bufs| == 1);
      assert d.Content() + Flatten(bufs) == (d.Content() + bufs[0]) + Flatten(bufs[1..]);
      ListenStep(c, Data(d), rx);
      match TryPush(d, bufs[0], c.maxDataSize)
      case None =>
        HearDataIgnored(c, bufs[1..], last, rest);
      case Some(d') =>
        if last && |bufs| == 1 {
          assert tail == rest && d'.Content() + [] == d'.Content();
        } else {
          HearOn(c, Data(d), rx, Data(d'), tail);
          HearData(c, d', bufs[1..], last, rest);
        }
    }
  }

  lemma {:induction false} HearPorts(c: Limits, q: seq<nat>, groups: seq<seq<nat>>, last: bool, rest: seq<Frame>)
    requires |q| <= c.maxPorts && (last ==> groups != []) && Boundary(rest)
    ensures Hears(c, Requests(q), PortFrames(groups, false, last) + rest)
         == (if |q + Flatten(groups)| > c.maxPorts then [HeardPortLimit] else []) + Hears(c, Nothing, rest)
    decreases |groups|
  {
    var rx := PortFrames(groups, false, last) + rest;
    if groups == [] {
      assert rx == rest && q + [] == q;
      HearBoundary(c, Requests(q), rest);
    } else {
      var tail := PortFrames(groups[1..], false, last) + rest;
      assert rx[1..] == tail && rx[0] == PortsFrame(groups[0], false, last && |groups| == 1);
      assert q + Flatten(groups) == (q + groups[0]) + Flatten(groups[1..]);
      ListenStep(c, Requests(q), rx);
      if |q + groups[0]| > c.maxPorts {
        HearPortsIgnored(c, groups[1..], last, rest);
      } else if last && |groups| == 1 {
        assert tail == rest && (q + groups[0]) + [] == q + groups[0];
      } else {
        HearOn(c, Requests(q), rx, Requests(q + groups[0]), tail);
        HearPorts(c, q + groups[0], groups[1..], last, rest);
      }
    }
  }

  lemma HearOne(c: Limits, m: Sent, rest: seq<Frame>)
    requires m.Valid() && Boundary(rest)
    ensures Hears(c, Nothing, FramesOf(m) + rest) == HeardOf(c, m) + Hears(c, Nothing, rest)
  {
    if m.SentData? && m.bufs != [] {
      HearWholeData(c, m.bufs, m.complete, rest);
    } else if m.SentPorts? && m.groups != [] {
      HearWholePorts(c, m.groups, m.complete, rest);
    } else {
      assert FramesOf(m) + rest == rest;
    }
    hide Hears;
  }

  lemma HearWholeData(c: Limits, bufs: seq<Bytes>, last: bool, rest: seq<Frame>)
    requires bufs != [] && Boundary(rest)
    ensures Hears(c, Nothing, DataFrames(bufs, true, last) + rest)
            == HeardOf(c, SentData(bufs, last)) + Hears(c, Nothing, rest)
  {
    hide Hears;
    var rx := DataFrames(bufs, true, last) + rest;
    var rx' := DataFrames(bufs, false, last) + rest;
    assert [] + Flatten(bufs) == Flatten(bufs);
    assert rx[1..] == rx'[1..];
    HearOn(c, Nothing, rx, Data(EMPTY_BUF), rx');
    HearData(c, EMPTY_BUF, bufs, last, rest);
  }

  lemma HearWholePorts(c: Limits, groups: seq<seq<nat>>, last: bool, rest: seq<Frame>)
    requires groups != [] && Boundary(rest)
    ensures Hears(c, Nothing, PortFrames(groups, true, last) + rest)
            == HeardOf(c, SentPorts(groups, last)) + Hears(c, Nothing, rest)
  {
    hide Hears;
    var rx := PortFrames(groups, true, last) + rest;
    var rx' := PortFrames(groups, false, last) + rest;
    assert [] + Flatten(groups) == Flatten(groups);
    assert rx[1..] == rx'[1..];
    HearOn(c, Nothing, rx, Requests([]), rx');
    HearPorts(c, [], groups, last, rest);
  }

  /** This client hears every completed message that fits, in order, whatever was cut in between. */
  lemma {:induction false} HeardDelivered(c: Limits, msgs: seq<Sent>)
    requires AllValid(msgs)
    ensures Hears(c, Nothing, Wire(msgs)) == ExpectHeard(c, msgs)
    decreases |msgs|
  {
    if msgs == [] {
      ListenStep(c, Nothing, Wire(msgs));
    } else {
      hide Listen, Hears, HeardOf;
      WireBoundary(msgs[1..]);
      HearOne(c, msgs[0], Wire(msgs[1..]));
      HeardDelivered(c, msgs[1..]);
    }
  }

  // ---------------------------------------------------------------------------
  // Schedules of arrival, and reports in between
  // ---------------------------------------------------------------------------

  lemma {:induction false} AnyLoopMore(c: Limits, r: Receiving, a: seq<Frame>, b: seq<Frame>)
    ensures var x := AnyLoop(c, r, a);
            AnyLoop(c, r, a + b) == if x.out.Waiting? then AnyLoop(c, x.s.receiving, b) else x.(rx := x.rx + b)
    decreases |a|
  {
    if a == [] {
      assert a + b == b;
    } else {
      assert (a + b)[1..] == a[1..] + b && (a + b)[0] == a[0];
      hide PassOf;
      match PassOf(c, r, a[0])
      case On(r') => AnyLoopMore(c, r', a[1..], b);
      case Out(_, _) =>
    }
  }

  lemma {:induction false} ChunkLoopMore(r: Receiving, a: seq<Frame>, b: seq<Frame>)
    ensures var x := ChunkLoop(r, a);
            ChunkLoop(r, a + b) == if x.out.ChunkWaiting? then ChunkLoop(x.s.receiving, b) else x.(rx := x.rx + b)
    ensures ChunkLoop(r, a).out.ChunkWaiting? ==> !ChunkLoop(r, a).s.finished
    decreases |a|
  {
    if a == [] {
      assert a + b == b;
    } else {
      assert (a + b)[1..] == a[1..] + b && (a + b)[0] == a[0];
      NotWaiting(r, a[0]);
      hide ChunkOf;
      if ChunkOf(r, a[0]).None? {
        ChunkLoopMore(r, a[1..], b);
      }
    }
  }

  lemma NotWaiting(r: Receiving, f: Frame)
    ensures ChunkOf(r, f).Some? ==> !ChunkOf(r, f).value.1.ChunkWaiting?
    ensures f.ReportFrame? ==> ChunkOf(r, f).None?
  {
  }

  lemma AnyMore(c: Limits, s: State, a: seq<Frame>, b: seq<Frame>)
    ensures var x := RecvAny(c, s, a);
            RecvAny(c, s, a + b) == if x.out.Waiting? then RecvAny(c, x.s, b) else x.(rx := x.rx + b)
  {
    AnyLoopMore(c, if s.receiving.Chunks? then Nothing else s.receiving, a, b);
    hide AnyLoop;
  }

  lemma ChunkMore(s: State, a: seq<Frame>, b: seq<Frame>)
    ensures var x := RecvChunk(s, a);
            RecvChunk(s, a + b) == if x.out.ChunkWaiting? then RecvChunk(x.s, b) else x.(rx := x.rx + b)
  {
    ChunkLoopMore(s.receiving, a, b);
    hide ChunkLoop;
  }

  /** One call of the receiver by the draining client, and what it goes on with. */
  datatype Turn =
    | Go(outs: seq<Outcome>, s: State, rx: seq<Frame>, acc: Option<Bytes>)
    | Stop(outs: seq<Outcome>, s: State)
    | Hold(s: State)

  function TurnOf(c: Limits, s: State, rx: seq<Frame>, acc: Option<Bytes>): Turn {
    match acc
    case None =>
      var a := RecvAny(c, s, rx);
      (match a.out
       case GotData(d) => Go([WholeMessage(d.Content())], a.s, a.rx, None)
       case GotChunks => Go([], a.s, a.rx, Some([]))
       case GotRequests(q) => Go([PortsMessage(q)], a.s, a.rx, None)
       case TooManyPorts => Go([OverPortLimit], a.s, a.rx, None)
       case Ended => Stop([End], a.s)
       case Waiting => Hold(a.s))
    case Some(got) =>
      var a := RecvChunk(s, rx);
      match a.out
      case Piece(buf) => Go([], a.s, a.rx, Some(got + buf))
      case NoMore => if a.s.finished then Stop([LongMessage(got), End], a.s)
        else Go([LongMessage(got)], a.s, a.rx, None)
      case CutOff => if a.s.finished then Stop([CutMessage(got), End], a.s) else Go([CutMessage(got)], a.s, a.rx, None)
      case ChunkWaiting => Hold(a.s)
  }

  lemma DrainTurn(c: Limits, s: State, rx: seq<Frame>, acc: Option<Bytes>)
    ensures Drain(c, s, rx, acc)
         == match TurnOf(c, s, rx, acc)
            case Go(outs, s', rx', acc') => Prepend(outs, Drain(c, s', rx', acc'))
            case Stop(outs, s') => Client(outs, s', None, true)
            case Hold(s') => Client([], s', acc, false)
  {
    hide AnyLoop, ChunkLoop;
    match TurnOf(c, s, rx, acc)
    case Go(outs, s', rx', acc') =>
      var k := Drain(c, s', rx', acc');
      assert [] + k.outs == k.outs;
    case _ =>
  }

  predicate Lower(s: State, rx: seq<Frame>, acc: Option<Bytes>, s': State, rx': seq<Frame>, acc': Option<Bytes>) {
    |rx'| < |rx| || (|rx'| == |rx| && (Weight(s'.receiving) < Weight(s.receiving)
                                       || (Weight(s'.receiving) == Weight(s.receiving) && acc.None? && acc'.Some?)))
  }

  lemma TurnProgress(c: Limits, s: State, rx: seq<Frame>, acc: Option<Bytes>)
    ensures var t := TurnOf(c, s, rx, acc); t.Go? ==> Lower(s, rx, acc, t.s, t.rx, t.acc)
  {
    hide AnyLoop, ChunkLoop;
  }

  lemma TurnMore(c: Limits, s: State, a: seq<Frame>, b: seq<Frame>, acc: Option<Bytes>)
    ensures TurnOf(c, s, a + b, acc)
         == match TurnOf(c, s, a, acc)
            case Go(outs, s', rx', acc') => Go(outs, s', rx' + b, acc')
            case Stop(outs, s') => Stop(outs, s')
            case Hold(s') => TurnOf(c, s', b, acc)
  {
    hide RecvAny, RecvChunk;
    if acc.None? { AnyMore(c, s, a, b); } else { ChunkMore(s, a, b); }
  }

  /** Waiting for more and going on later is the same as having had everything at once. */
  lemma {:induction false} DrainMore(c: Limits, s: State, a: seq<Frame>, b: seq<Frame>, acc: Option<Bytes>)
    ensures var k := Drain(c, s, a, acc);
            Drain(c, s, a + b, acc) == if k.ended then k else Prepend(k.outs, Drain(c, k.s, b, k.acc))
    decreases |a|, Weight(s.receiving), if acc.Some? then 0 else 1
  {
    TurnMore(c, s, a, b, acc);
    DrainTurn(c, s, a, acc);
    DrainTurn(c, s, a + b, acc);
    TurnProgress(c, s, a, acc);
    hide Drain, TurnOf;
    match TurnOf(c, s, a, acc)
    case Go(outs, s', rx, acc') =>
      DrainMore(c, s', rx, b, acc');
      var k := Drain(c, s', rx, acc');
      assert outs + (k.outs + Drain(c, k.s, b, k.acc).outs) == (outs + k.outs) + Drain(c, k.s, b, k.acc).outs;
    case Stop(_, _) =>
    case Hold(s') =>
      DrainTurn(c, s', b, acc);
      assert [] + Drain(c, s', b, acc).outs == Drain(c, s', b, acc).outs;
  }

  /** The client served in portions, resuming after every wait. */
  function Portions(c: Limits, k: Client, parts: seq<seq<Frame>>): Client
    decreases |parts|
  {
    if parts == [] || k.ended then k
    else Portions(c, Prepend(k.outs, Drain(c, k.s, parts[0], k.acc)), parts[1..])
  }

  lemma {:induction false} PortionsAnyhow(c: Limits, k: Client, parts: seq<seq<Frame>>)
    requires !k.ended && parts != []
    ensures Portions(c, k, parts) == Prepend(k.outs, Drain(c, k.s, Flatten(parts), k.acc))
    decreases |parts|
  {
    hide Drain;
    var d := Drain(c, k.s, parts[0], k.acc);
    DrainMore(c, k.s, parts[0], Flatten(parts[1..]), k.acc);
    if parts[1..] == [] {
      assert parts[0] + [] == parts[0];
    } else if !d.ended {
      PortionsAnyhow(c, Prepend(k.outs, d), parts[1..]);
      var e := Drain(c, d.s, Flatten(parts[1..]), d.acc);
      assert k.outs + (d.outs + e.outs) == (k.outs + d.outs) + e.outs;
    }
  }

  /** However the frames arrive, the outcome is the same. */
  lemma ArrivalsDoNotMatter(c: Limits, msgs: seq<Sent>, parts: seq<seq<Frame>>)
    requires AllValid(msgs) && parts != [] && Flatten(parts) == Wire(msgs)
    ensures Portions(c, Client([], State(Nothing, false), None, false), parts).outs == Expect(c, msgs, None)
  {
    Delivered(c, msgs, None);
    PortionsAnyhow(c, Client([], State(Nothing, false), None, false), parts);
  }

  function Strip(rx: seq<Frame>): seq<Frame> {
    if rx == [] then [] else (if rx[0].ReportFrame? then [] else [rx[0]]) + Strip(rx[1..])
  }

  lemma StripFirst(rx: seq<Frame>)
    requires rx != []
    ensures rx[0].ReportFrame? ==> Strip(rx) == Strip(rx[1..])
    ensures !rx[0].ReportFrame? ==> Strip(rx) != [] && Strip(rx)[0] == rx[0] && Strip(rx)[1..] == Strip(rx[1..])
  {
  }

  lemma {:induction false} AnyLoopStrip(c: Limits, r: Receiving, rx: seq<Frame>)
    ensures var a := AnyLoop(c, r, rx); AnyLoop(c, r, Strip(rx)) == a.(rx := Strip(a.rx))
    decreases |rx|
  {
    if rx != [] {
      StripFirst(rx);
      if rx[0].ReportFrame? {
        AnyLoopStrip(c, r, rx[1..]);
      } else {
        hide PassOf, Strip;
        match PassOf(c, r, rx[0])
        case On(r') => AnyLoopStrip(c, r', rx[1..]);
        case Out(_, _) =>
      }
    }
  }

  lemma {:induction false} ChunkLoopStrip(r: Receiving, rx: seq<Frame>)
    ensures var a := ChunkLoop(r, rx); ChunkLoop(r, Strip(rx)) == a.(rx := Strip(a.rx))
    decreases |rx|
  {
    if rx != [] {
      StripFirst(rx);
      NotWaiting(r, rx[0]);
      hide Strip, ChunkOf;
      if ChunkOf(r, rx[0]).None? {
        ChunkLoopStrip(r, rx[1..]);
      }
    }
  }

  lemma TurnStrip(c: Limits, s: State, rx: seq<Frame>, acc: Option<Bytes>)
    ensures var t := TurnOf(c, s, rx, acc);
            TurnOf(c, s, Strip(rx), acc) == if t.Go? then t.(rx := Strip(t.rx)) else t
  {
    if acc.None? {
      AnyLoopStrip(c, if s.receiving.Chunks? then Nothing else s.receiving, rx);
    } else {
      ChunkLoopStrip(s.receiving, rx);
    }
    hide AnyLoop, ChunkLoop, Strip;
  }

  /** Requests to report progress change nothing, wherever they appear. */
  lemma {:induction false} ReportsInvisible(c: Limits, s: State, rx: seq<Frame>, acc: Option<Bytes>)
    ensures Drain(c, s, Strip(rx), acc) == Drain(c, s, rx, acc)
    decreases |rx|, Weight(s.receiving), if acc.Some? then 0 else 1
  {
    TurnStrip(c, s, rx, acc);
    DrainTurn(c, s, rx, acc);
    DrainTurn(c, s, Strip(rx), acc);
    TurnProgress(c, s, rx, acc);
    hide Drain, TurnOf, Strip;
    match TurnOf(c, s, rx, acc)
    case Go(_, s', rx', acc') => ReportsInvisible(c, s', rx', acc');
    case _ =>
  }

  lemma DeliveredWithReports(c: Limits, msgs: seq<Sent>, rx: seq<Frame>)
    requires AllValid(msgs) && Strip(rx) == Wire(msgs)
    ensures Received(c, rx) == Expect(c, msgs, None)
  {
    Delivered(c, msgs, None);
    ReportsInvisible(c, State(Nothing, false), rx, None);
  }
}
