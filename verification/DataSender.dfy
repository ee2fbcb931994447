/** Sending data in pieces, paid for by credits that arrive in any portions. */
module DataSender {
  import opened Types
  import opened Frames

  /**
   The waits of a sender, in order. A wait for credits ends with the number that has arrived,
   and with zero when the caller gives up; a wait for room in the queue ends with whether the
   piece was queued. Nothing more to come is giving up.
   */
  datatype Waits = Waits(grants: seq<nat>, rooms: seq<bool>)

  const NO_WAITS := Waits([], [])

  datatype Emitted = Emitted(bufs: seq<Bytes>, credits: nat, waits: Waits, done: bool)

  function AfterGrant(waits: Waits): Waits {
    if waits.grants == [] then waits else waits.(grants := waits.grants[1..])
  }

  /** Credits at hand, or as many as arrive, up to the number asked for. */
  function Obtain(credits: nat, ask: nat, waits: Waits): (Option<nat>, Waits) {
    if credits > 0 then (Some(credits), waits)
    else if waits.grants == [] || waits.grants[0] == 0 then (None, AfterGrant(waits))
    else (Some(Min(waits.grants[0], ask)), AfterGrant(waits))
  }

  function Queued(waits: Waits): bool {
    waits.rooms != [] && waits.rooms[0]
  }

  function AfterQueue(waits: Waits): Waits {
    if waits.rooms == [] then waits else waits.(rooms := waits.rooms[1..])
  }

  /** Non-empty data leaves in pieces no larger than a chunk and no larger than the credits. */
  function Emit(data: Bytes, chunk: nat, credits: nat, waits: Waits): (r: Emitted)
    requires chunk > 0
    ensures Flatten(r.bufs) <= data
    ensures r.done ==> Flatten(r.bufs) == data
    ensures r.done && data != [] ==> r.bufs != []
    ensures forall i | 0 <= i < |r.bufs| :: 1 <= |r.bufs[i]| <= chunk
    decreases |data|
  {
    if data == [] then Emitted([], credits, waits, true)
    else
      match Obtain(credits, |data|, waits)
      case (None, waits') => Emitted([], 0, waits', false)
      case (Some(c), waits') =>
        var at := Min(Min(|data|, chunk), c);
        if !Queued(waits') then Emitted([], c - at, AfterQueue(waits'), false)
        else
          var r := Emit(data[at..], chunk, c - at, AfterQueue(waits'));
          var bufs := [data[..at]] + r.bufs;
          assert bufs[1..] == r.bufs;
          assert data == data[..at] + data[at..];
          r.(bufs := bufs)
  }

  /** Empty data is a frame of its own and costs one credit. */
  function EmitPart(data: Bytes, chunk: nat, credits: nat, waits: Waits): (r: Emitted)
    requires chunk > 0
    ensures Flatten(r.bufs) <= data
    ensures r.done ==> Flatten(r.bufs) == data && r.bufs != []
  {
    if data != [] then Emit(data, chunk, credits, waits)
    else
      match Obtain(credits, 1, waits)
      case (None, waits') => Emitted([], 0, waits', false)
      case (Some(c), waits') =>
        assert Flatten([data]) == data + Flatten([data][1..]);
        if Queued(waits') then Emitted([data], c - 1, AfterQueue(waits'), true)
        else Emitted([], c - 1, AfterQueue(waits'), false)
  }

  /** Without waiting: all credits at once, then as many pieces as the queue has room for. */
  function EmitAtOnce(data: Bytes, chunk: nat, room: nat): (r: Emitted)
    requires chunk > 0
    ensures Flatten(r.bufs) <= data
    ensures r.done ==> Flatten(r.bufs) == data
    ensures r.done && data != [] ==> r.bufs != []
    ensures forall i | 0 <= i < |r.bufs| :: 1 <= |r.bufs[i]| <= chunk
    ensures |r.bufs| <= room
    decreases |data|
  {
    if data == [] then Emitted([], 0, NO_WAITS, true)
    else if room == 0 then Emitted([], 0, NO_WAITS, false)
    else
      var at := Min(|data|, chunk);
      var r := EmitAtOnce(data[at..], chunk, room - 1);
      var bufs := [data[..at]] + r.bufs;
      assert bufs[1..] == r.bufs;
      assert data == data[..at] + data[at..];
      r.(bufs := bufs)
  }

  /** What has been sent so far, put before what follows. */
  function After(bufs: seq<Bytes>, r: Emitted): Emitted {
    r.(bufs := bufs + r.bufs)
  }

  /** One turn of the loop, from the wait for credits to the queued piece. */
  lemma EmitBegins(bufs: seq<Bytes>, data: Bytes, chunk: nat, credits: nat, waits: Waits)
    requires chunk > 0 && data != []
    ensures var (c, waits') := Obtain(credits, |data|, waits);
            After(bufs, Emit(data, chunk, credits, waits))
            == if c.None? then Emitted(bufs, 0, waits', false) else After(bufs, Emit(data, chunk, c.value, waits'))
    ensures credits > 0 ==> Obtain(credits, |data|, waits) == (Some(credits), waits)
    ensures Obtain(credits, |data|, waits).0.Some? ==> Obtain(credits, |data|, waits).0.value > 0
  {
  }

  lemma EmitStep(bufs: seq<Bytes>, data: Bytes, chunk: nat, credits: nat, waits: Waits)
    requires chunk > 0 && data != [] && credits > 0
    ensures var at := Min(Min(|data|, chunk), credits);
            After(bufs, Emit(data, chunk, credits, waits))
            == if !Queued(waits) then Emitted(bufs, credits - at, AfterQueue(waits), false)
               else After(bufs + [data[..at]], Emit(data[at..], chunk, credits - at, AfterQueue(waits)))
  {
    var at := Min(Min(|data|, chunk), credits);
    if Queued(waits) {
      var more := Emit(data[at..], chunk, credits - at, AfterQueue(waits)).bufs;
      assert bufs + ([data[..at]] + more) == (bufs + [data[..at]]) + more;
    }
  }

  lemma EmitNothing(bufs: seq<Bytes>, chunk: nat, credits: nat, waits: Waits)
    requires chunk > 0
    ensures After(bufs, Emit([], chunk, credits, waits)) == Emitted(bufs, credits, waits, true)
  {
  }

  lemma AtOnceStep(bufs: seq<Bytes>, data: Bytes, chunk: nat, room: nat)
    requires chunk > 0
    ensures var at := Min(|data|, chunk);
            After(bufs, EmitAtOnce(data, chunk, room))
            == if data == [] then Emitted(bufs, 0, NO_WAITS, true)
               else if room == 0 then Emitted(bufs, 0, NO_WAITS, false)
               else After(bufs + [data[..at]], EmitAtOnce(data[at..], chunk, room - 1))
  {
    var at := Min(|data|, chunk);
    if data != [] && room > 0 {
      var more := EmitAtOnce(data[at..], chunk, room - 1).bufs;
      assert bufs + ([data[..at]] + more) == (bufs + [data[..at]]) + more;
    }
  }

  /** The sending half of a port together with everything it has queued. */
  class Sender {
    const chunkSize: nat
    var waits: Waits
    var sent: seq<Frame>

    constructor (chunkSize: nat, waits: Waits)
      ensures this.chunkSize == chunkSize && this.waits == waits && sent == []
    {
      this.chunkSize, this.waits, sent := chunkSize, waits, [];
    }

    method WaitForCredits(ask: nat) returns (c: Option<nat>)
      modifies this`waits
      ensures (c, waits) == Obtain(0, ask, old(waits))
    {
      c := None;
      if waits.grants != [] {
        if waits.grants[0] > 0 {
          c := Some(Min(waits.grants[0], ask));
        }
        waits := waits.(grants := waits.grants[1..]);
      }
    }

    method Queue(f: Frame) returns (ok: bool)
      modifies this`waits, this`sent
      ensures ok == Queued(old(waits)) && waits == AfterQueue(old(waits))
      ensures sent == if ok then old(sent) + [f] else old(sent)
    {
      ok := waits.rooms != [] && waits.rooms[0];
      if waits.rooms != [] {
        waits := waits.(rooms := waits.rooms[1..]);
      }
      if ok {
        sent := sent + [f];
      }
    }

    method Send(data: Bytes) returns (ok: bool)
      requires chunkSize > 0
      modifies this
      ensures var r := EmitPart(data, chunkSize, 0, old(waits));
              && ok == r.done && waits == r.waits
              && sent == old(sent) + DataFrames(r.bufs, true, ok)
    {
      if data == [] {
        var c := WaitForCredits(1);
        if c.None? {
          return false;
        }
        ok := Queue(DataFrame(data, true, true));
        return;
      }
      var chunks := new ChunkSender(this);
      ok := chunks.SendPieces(data, true);
    }

    method TrySend(data: Bytes, creditsThere: bool, room: nat) returns (ok: bool)
      requires chunkSize > 0
      modifies this
      ensures !creditsThere ==> !ok && sent == old(sent)
      ensures creditsThere && data == [] ==>
                ok == (room > 0) && sent == old(sent) + if ok then DataFrames([[]], true, true) else []
      ensures creditsThere && data != [] ==>
                var r := EmitAtOnce(data, chunkSize, room);
                ok == r.done && sent == old(sent) + DataFrames(r.bufs, true, ok)
      ensures waits == old(waits)
    {
      if !creditsThere {
        return false;
      }
      if data == [] {
        if room > 0 {
          sent := sent + [DataFrame(data, true, true)];
        }
        return room > 0;
      }
      ok := TryPieces(data, room);
    }

    method TryPieces(data: Bytes, room: nat) returns (ok: bool)
      requires chunkSize > 0 && data != []
      modifies this`sent
      ensures var r := EmitAtOnce(data, chunkSize, room);
              ok == r.done && sent == old(sent) + DataFrames(r.bufs, true, ok)
    {
      hide EmitAtOnce, Flatten, DataFrames;
      var rest, first, left := data, true, room;
      ghost var bufs: seq<Bytes> := [];
      assert DataFrames([], true, false) == [];
      while rest != []
        invariant EmitAtOnce(data, chunkSize, room) == After(bufs, EmitAtOnce(rest, chunkSize, left))
        invariant sent == old(sent) + DataFrames(bufs, true, rest == [])
        invariant first <==> bufs == []
        invariant rest == [] ==> bufs != []
        decreases |rest|
      {
        AtOnceStep(bufs, rest, chunkSize, left);
        if left == 0 {
          return false;
        }
        var at := Min(|rest|, chunkSize);
        var chunk := rest[..at];
        rest, left := rest[at..], left - 1;
        DataFramesAppend(bufs, chunk, true, rest == []);
        sent := sent + [DataFrame(chunk, first, rest == [])];
        bufs := bufs + [chunk];
        first := false;
      }
      AtOnceStep(bufs, rest, chunkSize, left);
      ok := true;
    }
  }

  /** A message sent part by part; credits left over from one part pay for the next. */
  class ChunkSender {
    const sender: Sender
    var credits: nat
    var first: bool

    constructor (sender: Sender)
      ensures this.sender == sender && credits == 0 && first
    {
      this.sender, credits, first := sender, 0, true;
    }

    method SendPieces(data: Bytes, finish: bool) returns (ok: bool)
      requires sender.chunkSize > 0 && data != []
      modifies this, sender
      ensures var r := Emit(data, sender.chunkSize, old(credits), old(sender.waits));
              && ok == r.done && sender.waits == r.waits
              && (ok ==> credits == r.credits && !first)
              && sender.sent == old(sender.sent) + DataFrames(r.bufs, old(first), ok && finish)
    {
      hide Emit, Flatten, DataFrames, Obtain;
      var rest := data;
      ghost var bufs: seq<Bytes> := [];
      assert DataFrames([], first, false) == [];
      while rest != []
        invariant Emit(data, sender.chunkSize, old(credits), old(sender.waits))
               == After(bufs, Emit(rest, sender.chunkSize, credits, sender.waits))
        invariant sender.sent == old(sender.sent) + DataFrames(bufs, old(first), rest == [] && finish)
        invariant first <==> old(first) && bufs == []
        invariant rest == [] ==> bufs != []
        decreases |rest|
      {
        EmitBegins(bufs, rest, sender.chunkSize, credits, sender.waits);
        if credits == 0 {
          var c := sender.WaitForCredits(|rest|);
          if c.None? {
            return false;
          }
          credits := c.value;
        }
        EmitStep(bufs, rest, sender.chunkSize, credits, sender.waits);
        var at := Min(Min(|rest|, sender.chunkSize), credits);
        var chunk := rest[..at];
        var queued := sender.Queue(DataFrame(chunk, first, at == |rest| && finish));
        if !queued {
          return false;
        }
        credits, rest := credits - at, rest[at..];
        DataFramesAppend(bufs, chunk, old(first), rest == [] && finish);
        bufs := bufs + [chunk];
        first := false;
      }
      EmitNothing(bufs, sender.chunkSize, credits, sender.waits);
      ok := true;
    }

    method SendPart(data: Bytes, finish: bool) returns (ok: bool)
      requires sender.chunkSize > 0
      modifies this, sender
      ensures var r := EmitPart(data, sender.chunkSize, old(credits), old(sender.waits));
              && ok == r.done && sender.waits == r.waits
              && (ok ==> credits == r.credits && !first)
              && sender.sent == old(sender.sent) + DataFrames(r.bufs, old(first), ok && finish)
    {
      if data != [] {
        ok := SendPieces(data, finish);
        return;
      }
      if credits == 0 {
        var c := sender.WaitForCredits(1);
        if c.None? {
          return false;
        }
        credits := c.value;
      }
      credits := credits - 1;
      ok := sender.Queue(DataFrame(data, first, finish));
      if ok {
        first := false;
      }
    }
  }

  // ---------------------------------------------------------------------------
  // Whole operations
  // ---------------------------------------------------------------------------

  datatype Ending = Finish | Final(data: Bytes) | Dropped

  datatype Op =
    | Whole(data: Bytes)
    | Streamed(parts: seq<Bytes>, ending: Ending)
    | Try(data: Bytes, creditsThere: bool, room: nat)

  /** The data of an operation that runs to its end. */
  function Content(op: Op): Bytes {
    match op
    case Whole(data) => data
    case Streamed(parts, Final(data)) => Flatten(parts) + data
    case Streamed(parts, _) => Flatten(parts)
    case Try(data, _, _) => data
  }

  function EmitParts(parts: seq<Bytes>, chunk: nat, credits: nat, waits: Waits): (r: Emitted)
    requires chunk > 0
    ensures Flatten(r.bufs) <= Flatten(parts)
    ensures r.done ==> Flatten(r.bufs) == Flatten(parts)
    decreases |parts|
  {
    if parts == [] then Emitted([], credits, waits, true)
    else
      var a := EmitPart(parts[0], chunk, credits, waits);
      if !a.done then a
      else
        var b := EmitParts(parts[1..], chunk, a.credits, a.waits);
        FlattenConcat(a.bufs, b.bufs);
        b.(bufs := a.bufs + b.bufs)
  }

  /** The pieces that leave the sender, and whether the last of them says so. */
  function EmitOp(op: Op, chunk: nat, waits: Waits): (r: Emitted)
    requires chunk > 0
    ensures Flatten(r.bufs) <= Content(op)
    ensures r.done ==> Flatten(r.bufs) == Content(op) && r.bufs != []
  {
    match op
    case Whole(data) => EmitPart(data, chunk, 0, waits)
    case Streamed(parts, ending) =>
      var a := EmitParts(parts, chunk, 0, waits);
      if ending == Dropped || !a.done then a.(done := false)
      else
        var b := EmitPart(if ending.Final? then ending.data else [], chunk, a.credits, a.waits);
        FlattenConcat(a.bufs, b.bufs);
        b.(bufs := a.bufs + b.bufs)
    case Try(data, creditsThere, room) =>
      if !creditsThere then Emitted([], 0, waits, false)
      else if data == [] then
        assert Flatten([data]) == data + Flatten([data][1..]);
        Emitted(if room > 0 then [data] else [], 0, waits, room > 0)
      else EmitAtOnce(data, chunk, room).(waits := waits)
  }
}
