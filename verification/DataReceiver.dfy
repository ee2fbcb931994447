/** Putting messages together again from the frames of one port. */
module DataReceiver {
  import opened Types
  import opened Frames

  /** Received pieces of one message. */
  datatype DataBuf = DataBuf(bufs: seq<Bytes>, remaining: nat) {
    predicate Valid() {
      remaining == |Flatten(bufs)|
    }

    function Content(): Bytes {
      Flatten(bufs)
    }
  }

  const EMPTY_BUF := DataBuf([], 0)

  /** None when the piece does not fit. */
  function TryPush(d: DataBuf, buf: Bytes, maxSize: nat): (r: Option<DataBuf>)
    ensures d.Valid() ==> (r.Some? <==> |d.Content() + buf| <= maxSize)
    ensures d.Valid() && r.Some? ==> r.value.Valid() && r.value.Content() == d.Content() + buf
  {
    FlattenAppend(d.bufs, buf);
    if d.remaining + |buf| <= maxSize then Some(DataBuf(d.bufs + [buf], d.remaining + |buf|)) else None
  }

  /** Dropping bytes from the front, across pieces. */
  method Advance(d: DataBuf, count: nat) returns (r: DataBuf)
    requires d.Valid() && count <= d.remaining
    ensures r.Valid() && r.Content() == d.Content()[count..]
  {
    r := d;
    var left := count;
    while left > 0
      invariant r.Valid() && 0 <= left <= r.remaining
      invariant r.Content()[left..] == d.Content()[count..]
      decreases left, |r.bufs|
    {
      var front := r.bufs[0];
      var tail := Flatten(r.bufs[1..]);
      if |front| > left {
        var bufs := [front[left..]] + r.bufs[1..];
        assert bufs[1..] == r.bufs[1..];
        assert (front + tail)[left..] == front[left..] + tail;
        r := DataBuf(bufs, r.remaining - left);
        left := 0;
      } else {
        assert (front + tail)[left..] == tail[left - |front|..];
        r := DataBuf(r.bufs[1..], r.remaining - |front|);
        left := left - |front|;
      }
    }
    assert r.Content()[0..] == r.Content();
  }

  /** All pieces as one byte string. */
  method Join(d: DataBuf) returns (r: Bytes)
    ensures r == d.Content()
  {
    r := [];
    var bufs := d.bufs;
    while bufs != []
      invariant r + Flatten(bufs) == d.Content()
      decreases |bufs|
    {
      r := r + bufs[0];
      bufs := bufs[1..];
    }
  }

  datatype Receiving =
    | Nothing
    | Data(buf: DataBuf)
    | Chunks(chunks: seq<Bytes>, completed: bool, announced: bool)
    | Requests(reqs: seq<nat>)

  datatype Limits = Limits(maxDataSize: nat, maxPorts: nat)

  datatype State = State(receiving: Receiving, finished: bool)

  /** What a receiver hands out; Waiting means that all frames so far have been used up. */
  datatype Any = GotData(buf: DataBuf) | GotChunks | GotRequests(reqs: seq<nat>) | TooManyPorts | Ended | Waiting

  datatype AnyResult = AnyResult(s: State, rx: seq<Frame>, out: Any)

  /** One frame on its way through the receive loop: the loop goes on or the call returns. */
  datatype Pass = On(r: Receiving) | Out(s: State, out: Any)

  function PassOf(c: Limits, r: Receiving, frame: Frame): (p: Pass)
    ensures p.Out? ==> !p.out.Waiting?
    ensures p.On? && !r.Chunks? ==> !p.r.Chunks?
  {
    match frame
    case DataFrame(buf, first, last) =>
      (match if first then Data(EMPTY_BUF) else r
       case Data(d) =>
         (match TryPush(d, buf, c.maxDataSize)
          case Some(d') => if last then Out(State(Nothing, false), GotData(d')) else On(Data(d'))
          case None => Out(State(Chunks(d.bufs + [buf], last, true), false), GotChunks))
       case _ => On(Nothing))
    case PortsFrame(ports, first, last) =>
      (match if first then Requests([]) else r
       case Requests(q) =>
         if |q + ports| > c.maxPorts then Out(State(Nothing, false), TooManyPorts)
         else if last then Out(State(Nothing, false), GotRequests(q + ports))
         else On(Requests(q + ports))
       case _ => On(Nothing))
    case ReportFrame => On(r)
    case FinishedFrame => Out(State(r, true), Ended)
  }

  function AnyLoop(c: Limits, r: Receiving, rx: seq<Frame>): (a: AnyResult)
    ensures |a.rx| <= |rx| && (!a.out.Waiting? ==> |a.rx| < |rx|)
    ensures a.out.Waiting? ==> a.rx == [] && !a.s.finished && (!r.Chunks? ==> !a.s.receiving.Chunks?)
    decreases |rx|
  {
    if rx == [] then AnyResult(State(r, false), rx, Waiting)
    else
      match PassOf(c, r, rx[0])
      case On(r') => AnyLoop(c, r', rx[1..])
      case Out(s, out) => AnyResult(s, rx[1..], out)
  }

  function RecvAny(c: Limits, s: State, rx: seq<Frame>): AnyResult {
    if s.finished then AnyResult(s, rx, Ended)
    else if s.receiving.Chunks? then
      if s.receiving.chunks != [] || !s.receiving.completed
      then AnyResult(s.(receiving := s.receiving.(announced := true)), rx, GotChunks)
      else AnyLoop(c, Nothing, rx)
    else AnyLoop(c, s.receiving, rx)
  }

  datatype Chunk = Piece(buf: Bytes) | NoMore | CutOff | ChunkWaiting

  datatype ChunkResult = ChunkResult(s: State, rx: seq<Frame>, out: Chunk)

  /** One frame while chunks are awaited; None means that it is passed over. */
  function ChunkOf(r: Receiving, frame: Frame): Option<(State, Chunk)> {
    match frame
    case DataFrame(buf, first, last) =>
      if r.Chunks? && first then Some((State(Chunks([buf], last, false), false), CutOff))
      else if r.Chunks? || first then Some((State(Chunks([], last, true), false), Piece(buf)))
      else None
    case PortsFrame(_, _, _) => if r.Chunks? then Some((State(Nothing, false), CutOff)) else None
    case ReportFrame => None
    case FinishedFrame => Some(if r.Chunks? then (State(Nothing, true), CutOff) else (State(r, true), NoMore))
  }

  function ChunkLoop(r: Receiving, rx: seq<Frame>): (a: ChunkResult)
    ensures |a.rx| <= |rx|
    ensures |a.rx| == |rx| && !a.out.ChunkWaiting? ==>
              r.Chunks? && (if r.chunks != [] then a.s.receiving.Chunks? && |a.s.receiving.chunks| < |r.chunks|
                            else !a.s.receiving.Chunks?)
    decreases |rx|
  {
    if r.Chunks? && r.chunks != [] then
      ChunkResult(State(r.(chunks := r.chunks[1..], announced := true), false), rx, Piece(r.chunks[0]))
    else if r.Chunks? && r.completed then ChunkResult(State(Nothing, false), rx, NoMore)
    else if rx == [] then ChunkResult(State(r, false), rx, ChunkWaiting)
    else
      match ChunkOf(r, rx[0])
      case Some((s, out)) => ChunkResult(s, rx[1..], out)
      case None => ChunkLoop(r, rx[1..])
  }

  function RecvChunk(s: State, rx: seq<Frame>): ChunkResult {
    if s.finished then ChunkResult(s, rx, NoMore) else ChunkLoop(s.receiving, rx)
  }

  function Discard(s: State): State {
    if s.receiving.Chunks? && s.receiving.announced then s.(receiving := Nothing) else s
  }

  /**
   Discarding forgets the message that is being received in chunks and never the one whose
   start has cut it off.
   */
  lemma DiscardsOnlyAnnounced(c: Limits, s: State, rx: seq<Frame>)
    ensures var a := RecvAny(c, s, rx); a.out.GotChunks? ==> Discard(a.s) == State(Nothing, a.s.finished)
    ensures var a := RecvChunk(s, rx);
            && (a.out.Piece? ==> Discard(a.s) == State(Nothing, a.s.finished))
            && (a.out.CutOff? ==> Discard(a.s) == a.s)
  {
    if !s.finished {
      ChunksAnnounced(s.receiving, rx);
      AnyAnnounced(c, if s.receiving.Chunks? then Nothing else s.receiving, rx);
    }
  }

  lemma {:induction false} ChunksAnnounced(r: Receiving, rx: seq<Frame>)
    ensures var a := ChunkLoop(r, rx);
            && (a.out.Piece? ==> a.s.receiving.Chunks? && a.s.receiving.announced)
            && (a.out.CutOff? ==> a.s.receiving.Nothing? || (a.s.receiving.Chunks? && !a.s.receiving.announced))
    decreases |rx|
  {
    if rx != [] {
      ChunksAnnounced(r, rx[1..]);
    }
  }

  lemma {:induction false} AnyAnnounced(c: Limits, r: Receiving, rx: seq<Frame>)
    ensures var a := AnyLoop(c, r, rx); a.out.GotChunks? ==> a.s.receiving.Chunks? && a.s.receiving.announced
    decreases |rx|
  {
    if rx != [] && PassOf(c, r, rx[0]).On? {
      AnyAnnounced(c, PassOf(c, r, rx[0]).r, rx[1..]);
    }
  }

  datatype Received = Message(buf: DataBuf) | TooLarge | PortLimit | Over | RecvWaiting

  datatype RecvResult = RecvResult(s: State, rx: seq<Frame>, out: Received)

  /** Whole messages only: port requests are passed over, oversized messages reported and dropped. */
  function Recv(c: Limits, s: State, rx: seq<Frame>): RecvResult
    decreases |rx|
  {
    var a := RecvAny(c, s, rx);
    match a.out
    case GotData(d) => RecvResult(a.s, a.rx, Message(d))
    case GotChunks => RecvResult(Discard(a.s), a.rx, TooLarge)
    case GotRequests(_) => Recv(c, a.s, a.rx)
    case TooManyPorts => RecvResult(a.s, a.rx, PortLimit)
    case Ended => RecvResult(a.s, a.rx, Over)
    case Waiting => RecvResult(a.s, a.rx, RecvWaiting)
  }

  class Receiver {
    const limits: Limits
    var receiving: Receiving
    var finished: bool
    var rx: seq<Frame>

    function Value(): State
      reads this
    {
      State(receiving, finished)
    }

    constructor (limits: Limits)
      ensures this.limits == limits && Value() == State(Nothing, false) && rx == []
    {
      this.limits := limits;
      receiving, finished, rx := Nothing, false, [];
    }

    method Arrive(fs: seq<Frame>)
      modifies this`rx
      ensures rx == old(rx) + fs
    {
      rx := rx + fs;
    }

    /** Waits keep what has been put together so far, so a wait may be abandoned and resumed. */
    method ReceiveAny() returns (out: Any)
      modifies this
      ensures RecvAny(limits, old(Value()), old(rx)) == AnyResult(Value(), rx, out)
    {
      if finished {
        return Ended;
      }
      if receiving.Chunks? {
        if receiving.chunks != [] || !receiving.completed {
          receiving := receiving.(announced := true);
          return GotChunks;
        }
        receiving := Nothing;
      }
      hide TryPush;
      ghost var goal := AnyLoop(limits, receiving, rx);
      while rx != []
        invariant !finished && AnyLoop(limits, receiving, rx) == goal
        decreases |rx|
      {
        var frame := rx[0];
        rx := rx[1..];
        match frame {
          case DataFrame(buf, first, last) =>
            if first {
              receiving := Data(EMPTY_BUF);
            }
            var taken := receiving;
            receiving := Nothing;
            if taken.Data? {
              match TryPush(taken.buf, buf, limits.maxDataSize) {
                case Some(d) =>
                  if last {
                    return GotData(d);
                  }
                  receiving := Data(d);
                case None =>
                  receiving := Chunks(taken.buf.bufs + [buf], last, true);
                  return GotChunks;
              }
            }
          case PortsFrame(ports, first, last) =>
            if first {
              receiving := Requests([]);
            }
            var taken := receiving;
            receiving := Nothing;
            if taken.Requests? {
              var requests := taken.reqs + ports;
              if |requests| > limits.maxPorts {
                return TooManyPorts;
              }
              if last {
                return GotRequests(requests);
              }
              receiving := Requests(requests);
            }
          case ReportFrame =>
          case FinishedFrame =>
            finished := true;
            return Ended;
        }
      }
      out := Waiting;
    }

    method ReceiveChunk() returns (out: Chunk)
      modifies this
      ensures RecvChunk(old(Value()), old(rx)) == ChunkResult(Value(), rx, out)
    {
      if finished {
        return NoMore;
      }
      ghost var goal := ChunkLoop(receiving, rx);
      while true
        invariant !finished && ChunkLoop(receiving, rx) == goal
        decreases |rx|
      {
        if receiving.Chunks? && receiving.chunks != [] {
          var chunk := receiving.chunks[0];
          receiving := receiving.(chunks := receiving.chunks[1..], announced := true);
          return Piece(chunk);
        }
        if receiving.Chunks? && receiving.completed {
          receiving := Nothing;
          return NoMore;
        }
        if rx == [] {
          return ChunkWaiting;
        }
        var frame := rx[0];
        rx := rx[1..];
        match frame {
          case DataFrame(buf, first, last) =>
            if receiving.Chunks? && first {
              receiving := Chunks([buf], last, false);
              return CutOff;
            } else if receiving.Chunks? || first {
              receiving := Chunks([], last, true);
              return Piece(buf);
            }
          case PortsFrame(_, _, _) =>
            if receiving.Chunks? {
              receiving := Nothing;
              return CutOff;
            }
          case ReportFrame =>
          case FinishedFrame =>
            finished := true;
            if receiving.Chunks? {
              receiving := Nothing;
              return CutOff;
            }
            return NoMore;
        }
      }
    }

    method DiscardChunks()
      modifies this`receiving
      ensures Value() == Discard(old(Value()))
    {
      if receiving.Chunks? && receiving.announced {
        receiving := Nothing;
      }
    }

    method Receive() returns (out: Received)
      modifies this
      ensures Recv(limits, old(Value()), old(rx)) == RecvResult(Value(), rx, out)
    {
      hide AnyLoop, RecvAny;
      ghost var goal := Recv(limits, Value(), rx);
      while true
        invariant Recv(limits, Value(), rx) == goal
        decreases |rx|
      {
        ghost var s0, rx0 := Value(), rx;
        RequestsConsume(limits, s0, rx0);
        var a := ReceiveAny();
        match a {
          case GotData(d) => return Message(d);
          case GotChunks =>
            DiscardChunks();
            return TooLarge;
          case GotRequests(_) =>
          case TooManyPorts => return PortLimit;
          case Ended => return Over;
          case Waiting => return RecvWaiting;
        }
      }
    }
  }

  lemma RequestsConsume(c: Limits, s: State, rx: seq<Frame>)
    ensures RecvAny(c, s, rx).out.GotRequests? ==> |RecvAny(c, s, rx).rx| < |rx|
  {
  }
}
