/** Frames with length headers over a byte stream, whatever pieces the stream is written and read in. */
module Framing {
  import opened Types
  import opened Frames
  import opened LittleEndian
  import opened Varint

  // ---------------------------------------------------------------------------
  // Headers
  // ---------------------------------------------------------------------------

  /** The length is cast to 32 bits. */
  function Header(varint: bool, len: nat): (h: Bytes)
    ensures h != []
  {
    if varint then Encode(len % U32_BOUND) else LE(len % U32_BOUND, 4)
  }

  function EncodeFrame(varint: bool, frame: Bytes): Bytes {
    Header(varint, |frame|) + frame
  }

  function EncodeFrames(varint: bool, frames: seq<Bytes>): Bytes {
    if frames == [] then [] else EncodeFrame(varint, frames[0]) + EncodeFrames(varint, frames[1..])
  }

  lemma {:induction false} EncodeFramesConcat(varint: bool, a: seq<Bytes>, b: seq<Bytes>)
    ensures EncodeFrames(varint, a + b) == EncodeFrames(varint, a) + EncodeFrames(varint, b)
    decreases |a|
  {
    if a == [] {
      assert a + b == b;
    } else {
      assert (a + b)[1..] == a[1..] + b;
      EncodeFramesConcat(varint, a[1..], b);
    }
  }

  lemma EncodeFramesAppend(varint: bool, frames: seq<Bytes>, frame: Bytes)
    ensures EncodeFrames(varint, frames + [frame]) == EncodeFrames(varint, frames) + EncodeFrame(varint, frame)
  {
    EncodeFramesConcat(varint, frames, [frame]);
    assert [frame][1..] == [];
    assert EncodeFrames(varint, [frame]) == EncodeFrame(varint, frame) + [];
  }

  /** An incomplete header leaves the decoder as it is then, and any bytes it did not take. */
  datatype HeaderRead = Incomplete(d: Decoder, left: Bytes) | Length(n: nat, left: Bytes) | BadHeader

  function ReadHeader(varint: bool, max: nat, d: Decoder, bytes: Bytes): HeaderRead {
    if varint then
      match Feed(d, bytes)
      case Partial(d') => Incomplete(d', [])
      case Got(n, rest) => if n > max then BadHeader else Length(n, rest)
      case Bad => BadHeader
    else if |bytes| < 4 then Incomplete(d, bytes)
    else if FromLE(bytes[..4]) > max then BadHeader
    else Length(FromLE(bytes[..4]), bytes[4..])
  }

  lemma ReadHeaderMore(varint: bool, max: nat, d: Decoder, a: Bytes, b: Bytes)
    ensures ReadHeader(varint, max, d, a + b)
         == match ReadHeader(varint, max, d, a)
            case Incomplete(d', left) => ReadHeader(varint, max, d', left + b)
            case Length(n, left) => Length(n, left + b)
            case BadHeader => BadHeader
    ensures !varint && ReadHeader(varint, max, d, a).Incomplete? ==> ReadHeader(varint, max, d, a).d == d
  {
    FeedMore(d, a, b);
    assert [] + b == b;
    assert |a| >= 4 ==> (a + b)[4..] == a[4..] + b && (a + b)[..4] == a[..4];
  }

  lemma HeaderRoundTrip(varint: bool, max: nat, len: nat, rest: Bytes)
    requires len <= max < U32_BOUND
    ensures ReadHeader(varint, max, IDLE, Header(varint, len) + rest) == Length(len, rest)
  {
    hide Feed, WellFormed, Meaning, Encode, LE, FromLE, Pow256;
    if varint {
      EncodesMinimally(len, []);
      DecodesExactly(Encode(len), rest);
    } else {
      Widths();
      FromLEBack(len, 4);
      assert (LE(len, 4) + rest)[4..] == rest && (LE(len, 4) + rest)[..4] == LE(len, 4);
    }
  }

  // ---------------------------------------------------------------------------
  // Reading
  // ---------------------------------------------------------------------------

  /** A frame whose rest is still to come. */
  datatype Open = Open(data: Bytes, remaining: nat)

  /** All that a reader still has to work on: what it holds and what the stream will deliver. */
  datatype Inbound = Inbound(d: Decoder, frame: Option<Open>, bytes: Bytes)

  datatype Item = Frame(data: Bytes) | CleanEnd | Truncated | BadLength | NotYet | IoError

  function Fill(d: Decoder, f: Open, bytes: Bytes): (Item, Inbound) {
    if |bytes| >= f.remaining then (Frame(f.data + bytes[..f.remaining]), Inbound(d, None, bytes[f.remaining..]))
    else (Truncated, Inbound(d, Some(Open(f.data + bytes, f.remaining - |bytes|)), []))
  }

  /** What the reader returns next once it has read what it needs. */
  function Next(varint: bool, max: nat, s: Inbound): (Item, Inbound) {
    match s.frame
    case Some(f) => Fill(s.d, f, s.bytes)
    case None =>
      match ReadHeader(varint, max, s.d, s.bytes)
      case Incomplete(d, left) =>
        (if left == [] && d.pos == 0 then CleanEnd else Truncated, Inbound(d, None, left))
      case Length(n, left) => Fill(if varint then IDLE else s.d, Open([], n), left)
      case BadHeader => (BadLength, Inbound(IDLE, None, []))
  }

  lemma FillMore(d: Decoder, f: Open, a: Bytes, b: Bytes)
    requires |a| <= f.remaining
    ensures Fill(d, f, a + b) == Fill(d, Open(f.data + a, f.remaining - |a|), b)
  {
    if |a + b| >= f.remaining {
      assert (a + b)[..f.remaining] == a + b[..f.remaining - |a|];
      assert (a + b)[f.remaining..] == b[f.remaining - |a|..];
      assert f.data + (a + b[..f.remaining - |a|]) == (f.data + a) + b[..f.remaining - |a|];
    } else {
      assert f.data + (a + b) == (f.data + a) + b;
    }
  }

  /** Reads that obtained something, and then one that was not ready. */
  ghost predicate MetUnready(asked: seq<nat>, left: seq<nat>) {
    && |left| <= |asked| && left == asked[|asked| - |left|..]
    && var met := asked[..|asked| - |left|];
       if met != [] && met[|met| - 1] == 0 then 0 !in met[..|met| - 1] else left == [] && 0 !in met
  }

  class FrameStream {
    const varint: bool
    const max: nat
    const decoder: VarintDecoder
    var buf: Bytes
    var frame: Option<Open>
    /** What the stream will still deliver, and how much each read obtains; zero means not yet. */
    var input: Bytes
    var portions: seq<nat>

    ghost predicate Valid()
      reads this, decoder
    {
      Between(decoder.Value()) && (frame.Some? ==> buf == [])
    }

    ghost function Value(): Inbound
      reads this, decoder
    {
      Inbound(decoder.Value(), frame, buf + input)
    }

    constructor (varint: bool, max: u32, input: Bytes, portions: seq<nat>)
      ensures Valid() && fresh(decoder) && Value() == Inbound(IDLE, None, input)
      ensures this.varint == varint && this.max == max
    {
      this.varint, this.max := varint, max;
      decoder := new VarintDecoder();
      buf, frame, this.input, this.portions := [], None, input, portions;
      new;
      assert buf + input == input;
    }

    method DecodeHeader() returns (r: HeaderRead)
      requires Valid()
      modifies this`buf, decoder
      ensures Valid() || r.BadHeader?
      ensures r == ReadHeader(varint, max, old(decoder.Value()), old(buf))
      ensures r.Incomplete? ==> decoder.Value() == r.d && buf == r.left
      ensures r.Length? ==> decoder.Value() == (if varint then IDLE else old(decoder.Value())) && buf == r.left
    {
      if !varint {
        if |buf| < 4 {
          return Incomplete(decoder.Value(), buf);
        }
        var length := FromLE(buf[..4]);
        buf := buf[4..];
        return if length > max then BadHeader else Length(length, buf);
      }
      ghost var goal := Feed(decoder.Value(), buf);
      while buf != []
        invariant Between(decoder.Value()) && Feed(decoder.Value(), buf) == goal
        invariant frame.Some? ==> buf == []
        decreases |buf|
      {
        var b := buf[0];
        buf := buf[1..];
        var out := decoder.Decode(b);
        match out {
          case More =>
          case Done(n) => return if n > max then BadHeader else Length(n, buf);
          case Invalid => return BadHeader;
        }
      }
      r := Incomplete(decoder.Value(), []);
    }

    /** A read obtains at least one byte unless the stream is over. */
    method Read(limit: nat) returns (data: Option<Bytes>)
      requires limit > 0
      modifies this`input, this`portions
      ensures data.Some? <==> old(portions) != [] && old(portions)[0] > 0
      ensures portions == if old(portions) == [] then [] else old(portions)[1..]
      ensures data.None? ==> input == old(input)
      ensures data.Some? ==> old(input) == data.value + input
                             && |data.value| == Min(Min(old(portions)[0], limit), |old(input)|)
    {
      if portions == [] {
        return None;
      }
      var n := Min(Min(portions[0], limit), |input|);
      var empty := portions[0] == 0;
      portions := portions[1..];
      if empty {
        return None;
      }
      data := Some(input[..n]);
      input := input[n..];
    }

    /** What has been read settles nothing, and the read just asked for was not ready. */
    ghost predicate Waits(asked: seq<nat>)
      reads this, decoder
    {
      && (Next(varint, max, Inbound(decoder.Value(), frame, buf)).0 in {CleanEnd, Truncated})
      && portions == (if asked == [] then [] else asked[1..])
      && (asked != [] ==> asked[0] == 0)
    }

    /** One turn with a frame in progress; None means that the loop goes on. */
    method FrameTurn() returns (r: Option<Item>)
      requires Valid() && frame.Some?
      modifies this`frame, this`input, this`portions
      ensures r.None? ==> frame.Some? && old(portions) != [] && old(portions)[0] > 0 && portions == old(portions)[1..]
      ensures r == Some(NotYet) ==> Waits(old(portions))
      ensures r.None? || r.value.NotYet? ==> Valid() && Next(varint, max, Value()) == Next(varint, max, old(Value()))
      ensures r.Some? && !r.value.NotYet? ==> r.value == Next(varint, max, old(Value())).0
      ensures r.Some? && r.value.Frame? ==> Valid() && Value() == Next(varint, max, old(Value())).1
    {
      var f := frame.value;
      assert buf + input == input;
      if f.remaining == 0 {
        frame := None;
        assert f.data + input[..0] == f.data && input[0..] == input;
        return Some(Frame(f.data));
      }
      ghost var before := input;
      var data := Read(f.remaining);
      if data.None? {
        return Some(NotYet);
      }
      if data.value == [] {
        return Some(Truncated);
      }
      FillMore(decoder.Value(), f, data.value, input);
      frame := Some(Open(f.data + data.value, f.remaining - |data.value|));
      assert buf + input == input;
      r := None;
    }

    method HeaderTurn(capacity: nat) returns (r: Option<Item>)
      requires Valid() && frame.None? && capacity > 0
      modifies this, decoder
      ensures r.None? ==> || (old(portions) != [] && old(portions)[0] > 0 && portions == old(portions)[1..])
                          || (portions == old(portions) && frame.Some?)
      ensures r == Some(NotYet) ==> Waits(old(portions))
      ensures r.None? || r.value.NotYet? ==> Valid() && Next(varint, max, Value()) == Next(varint, max, old(Value()))
      ensures r.Some? && !r.value.NotYet? ==> r.value == Next(varint, max, old(Value())).0
      ensures r.Some? && r.value.Frame? ==> Valid() && Value() == Next(varint, max, old(Value())).1
    {
      hide ReadHeader;
      ghost var d0, buf0 := decoder.Value(), buf;
      ReadHeaderMore(varint, max, d0, buf, input);
      var header := DecodeHeader();
      match header {
        case Length(n, left) =>
          if |buf| >= n {
            var data := buf[..n];
            assert (buf + input)[..n] == data && (buf + input)[n..] == buf[n..] + input;
            assert [] + data == data;
            buf := buf[n..];
            return Some(Frame(data));
          }
          FillMore(decoder.Value(), Open([], n), buf, input);
          assert [] + buf == buf;
          frame := Some(Open(buf, n - |buf|));
          buf := [];
          assert buf + input == input;
          r := None;
        case Incomplete(d, left) =>
          ghost var before := input;
          var data := Read(capacity);
          if data.None? {
            StillIncomplete(varint, max, d0, buf0);
            return Some(NotYet);
          }
          if data.value == [] {
            assert buf + before == buf;
            AtEnd(varint, max, d0, buf0);
            return Some(if buf == [] && decoder.IsEmpty() then CleanEnd else Truncated);
          }
          assert buf + before == (buf + data.value) + input;
          buf := buf + data.value;
          r := None;
        case BadHeader =>
          return Some(BadLength);
      }
    }

    /**
     Returns what `Next` says, or is not ready and then has lost nothing. It is not ready only
     if what was read settles no item and the stream had nothing to read.
     */
    method PollNext(capacity: nat) returns (r: Item)
      requires Valid() && capacity > 0
      modifies this, decoder
      ensures r.NotYet? ==> Valid() && Next(varint, max, Value()) == Next(varint, max, old(Value()))
      ensures r.NotYet? ==> && Next(varint, max, Inbound(decoder.Value(), frame, buf)).0 in {CleanEnd, Truncated}
                            && MetUnready(old(portions), portions)
      ensures !r.NotYet? ==> r == Next(varint, max, old(Value())).0
      ensures r.Frame? ==> Valid() && Value() == Next(varint, max, old(Value())).1
    {
      hide Next;
      ghost var used: nat := 0;
      while true
        invariant Valid() && Next(varint, max, Value()) == Next(varint, max, old(Value()))
        invariant used <= |old(portions)| && portions == old(portions)[used..] && 0 !in old(portions)[..used]
        decreases |portions|, if frame.Some? then 0 else 1
      {
        var out: Option<Item>;
        ghost var asked := portions;
        if frame.Some? {
          out := FrameTurn();
        } else {
          out := HeaderTurn(capacity);
        }
        if out.Some? {
          if out.value.NotYet? {
            Unready(old(portions), used, portions);
          }
          return out.value;
        }
        if portions != asked {
          assert old(portions)[..used + 1] == old(portions)[..used] + [asked[0]];
          used := used + 1;
        }
      }
    }
  }

  lemma StillIncomplete(varint: bool, max: nat, d: Decoder, bytes: Bytes)
    requires ReadHeader(varint, max, d, bytes).Incomplete?
    ensures var r := ReadHeader(varint, max, d, bytes);
            Next(varint, max, Inbound(r.d, None, r.left)).0 in {CleanEnd, Truncated}
  {
    AtEnd(varint, max, d, bytes);
    hide ReadHeader;
  }

  lemma Unready(asked: seq<nat>, used: nat, left: seq<nat>)
    requires used <= |asked| && 0 !in asked[..used]
    requires if asked[used..] == [] then left == [] else asked[used] == 0 && left == asked[used + 1..]
    ensures MetUnready(asked, left)
  {
    if used < |asked| {
      assert asked[..used + 1][..used] == asked[..used];
    } else {
      assert asked[..used] == asked;
    }
  }

  /** Reading a header again from what an incomplete one left changes nothing. */
  lemma AtEnd(varint: bool, max: nat, d: Decoder, bytes: Bytes)
    requires ReadHeader(varint, max, d, bytes).Incomplete?
    ensures var r := ReadHeader(varint, max, d, bytes); ReadHeader(varint, max, r.d, r.left) == r
  {
  }

  // ---------------------------------------------------------------------------
  // All frames of a stream
  // ---------------------------------------------------------------------------

  /** Frames up to the first item that is none, and that item. */
  function ReadAll(varint: bool, max: nat, s: Inbound): (seq<Bytes>, Item)
    requires Between(s.d)
    decreases |s.bytes|, if s.frame.Some? then 1 else 0
  {
    var (item, s') := Next(varint, max, s);
    if item.Frame? then
      NextConsumes(varint, max, s);
      var (frames, end) := ReadAll(varint, max, s');
      ([item.data] + frames, end)
    else ([], item)
  }

  lemma NextConsumes(varint: bool, max: nat, s: Inbound)
    requires Between(s.d) && Next(varint, max, s).0.Frame?
    ensures var s' := Next(varint, max, s).1;
            Between(s'.d) && s'.frame.None? && (|s'.bytes| < |s.bytes| || (|s'.bytes| == |s.bytes| && s.frame.Some?))
  {
    if s.frame.None? && varint {
      FedFits(s.d, s.bytes);
    }
  }

  function Reads(varint: bool, max: nat, bytes: Bytes): (seq<Bytes>, Item) {
    ReadAll(varint, max, Inbound(IDLE, None, bytes))
  }

  lemma NextFrame(varint: bool, max: nat, frame: Bytes, rest: Bytes)
    requires |frame| <= max < U32_BOUND
    ensures Next(varint, max, Inbound(IDLE, None, EncodeFrame(varint, frame) + rest))
            == (Frame(frame), Inbound(IDLE, None, rest))
  {
    HeaderRoundTrip(varint, max, |frame|, frame + rest);
    assert EncodeFrame(varint, frame) + rest == Header(varint, |frame|) + (frame + rest);
    assert (frame + rest)[..|frame|] == frame && (frame + rest)[|frame|..] == rest;
    assert [] + frame == frame;
  }

  predicate Sendable(max: nat, frames: seq<Bytes>) {
    max < U32_BOUND && forall i | 0 <= i < |frames| :: |frames[i]| <= max
  }

  lemma ReadFrame(varint: bool, max: nat, frame: Bytes, rest: Bytes)
    requires |frame| <= max < U32_BOUND
    ensures Reads(varint, max, EncodeFrame(varint, frame) + rest)
            == ([frame] + Reads(varint, max, rest).0, Reads(varint, max, rest).1)
  {
    NextFrame(varint, max, frame, rest);
    hide Next, EncodeFrame;
  }

  lemma {:induction false} FramesBefore(varint: bool, max: nat, frames: seq<Bytes>, rest: Bytes)
    requires Sendable(max, frames)
    ensures Reads(varint, max, EncodeFrames(varint, frames) + rest)
         == (frames + Reads(varint, max, rest).0, Reads(varint, max, rest).1)
    decreases |frames|
  {
    hide Reads, EncodeFrame;
    if frames == [] {
      assert EncodeFrames(varint, []) + rest == rest;
      assert [] + Reads(varint, max, rest).0 == Reads(varint, max, rest).0;
    } else {
      var more := EncodeFrames(varint, frames[1..]) + rest;
      ReadFrame(varint, max, frames[0], more);
      assert EncodeFrames(varint, frames) + rest == EncodeFrame(varint, frames[0]) + more;
      FramesBefore(varint, max, frames[1..], rest);
      assert [frames[0]] + (frames[1..] + Reads(varint, max, rest).0) == frames + Reads(varint, max, rest).0;
    }
  }

  /** What was sent is read, followed by a clean end. */
  lemma FramesRoundTrip(varint: bool, max: nat, frames: seq<Bytes>)
    requires Sendable(max, frames)
    ensures Reads(varint, max, EncodeFrames(varint, frames)) == (frames, CleanEnd)
  {
    FramesBefore(varint, max, frames, []);
    assert EncodeFrames(varint, frames) + [] == EncodeFrames(varint, frames);
    assert frames + [] == frames;
    EmptyEnds(varint, max);
  }

  lemma EmptyEnds(varint: bool, max: nat)
    ensures Reads(varint, max, []) == ([], CleanEnd)
  {
  }

  /** A length beyond the limit is refused, and nothing after it is read. */
  lemma TooLongRefused(varint: bool, max: nat, frame: Bytes, rest: Bytes)
    requires max < |frame| < U32_BOUND
    ensures Reads(varint, max, EncodeFrame(varint, frame) + rest) == ([], BadLength)
  {
    HeaderRoundTrip(varint, |frame|, |frame|, frame + rest);
    assert EncodeFrame(varint, frame) + rest == Header(varint, |frame|) + (frame + rest);
  }

  // ---------------------------------------------------------------------------
  // A stream that ends early
  // ---------------------------------------------------------------------------

  lemma {:induction false} Unterminated(d: Decoder, bs: Bytes)
    requires Between(d) && d.pos + |bs| < VARINT_MAX && forall i | 0 <= i < |bs| :: bs[i] >= 128
    ensures Feed(d, bs).Partial? && Feed(d, bs).d.pos == d.pos + |bs|
    decreases |bs|
  {
    if bs != [] {
      StepBetween(d, bs[0]);
      Unterminated(Step(d, bs[0]).0, bs[1..]);
    }
  }

  lemma PartOfHeader(varint: bool, max: nat, len: nat, k: nat)
    requires len < U32_BOUND && 0 < k < |Header(varint, len)|
    ensures Reads(varint, max, Header(varint, len)[..k]) == ([], Truncated)
  {
    var part := Header(varint, len)[..k];
    if varint {
      EncodesMinimally(len, []);
      Unterminated(IDLE, part);
    }
    HeaderMissing(varint, max, part);
  }

  lemma HeaderMissing(varint: bool, max: nat, part: Bytes)
    requires ReadHeader(varint, max, IDLE, part).Incomplete?
    requires ReadHeader(varint, max, IDLE, part).left != [] || ReadHeader(varint, max, IDLE, part).d.pos > 0
    ensures Reads(varint, max, part) == ([], Truncated)
  {
    hide ReadHeader;
  }

  lemma PartOfData(varint: bool, max: nat, frame: Bytes, k: nat)
    requires |frame| <= max < U32_BOUND && k < |frame|
    ensures Reads(varint, max, Header(varint, |frame|) + frame[..k]) == ([], Truncated)
  {
    HeaderRoundTrip(varint, max, |frame|, frame[..k]);
    hide ReadHeader, Header;
  }

  /** Part of a frame is never taken for a frame or for a clean end. */
  lemma PartOfFrame(varint: bool, max: nat, frame: Bytes, k: nat)
    requires |frame| <= max < U32_BOUND && 0 < k < |EncodeFrame(varint, frame)|
    ensures Reads(varint, max, EncodeFrame(varint, frame)[..k]) == ([], Truncated)
  {
    hide Reads;
    var h := Header(varint, |frame|);
    if k >= |h| {
      assert EncodeFrame(varint, frame)[..k] == h + frame[..k - |h|];
      PartOfData(varint, max, frame, k - |h|);
    } else {
      assert EncodeFrame(varint, frame)[..k] == h[..k];
      PartOfHeader(varint, max, |frame|, k);
    }
  }

  lemma OneFrameMore(varint: bool, frames: seq<Bytes>, n: nat)
    requires n < |frames|
    ensures EncodeFrames(varint, frames[..n + 1])
            == EncodeFrame(varint, frames[0]) + EncodeFrames(varint, frames[1..][..n])
    ensures EncodeFrames(varint, frames[1..][..n]) <= EncodeFrames(varint, frames[1..]) ==>
              EncodeFrames(varint, frames[..n + 1]) <= EncodeFrames(varint, frames)
  {
    hide EncodeFrame;
    assert frames[..n + 1][1..] == frames[1..][..n];
  }

  /** How many whole frames the first bytes hold, and how many bytes are left over. */
  function Whole(varint: bool, frames: seq<Bytes>, k: nat): (r: (nat, nat))
    requires k <= |EncodeFrames(varint, frames)|
    ensures r.0 <= |frames| && |EncodeFrames(varint, frames[..r.0])| + r.1 == k
    ensures EncodeFrames(varint, frames[..r.0]) <= EncodeFrames(varint, frames)
    ensures r.0 < |frames| ==> r.1 < |EncodeFrame(varint, frames[r.0])|
    ensures r.0 == |frames| ==> r.1 == 0
    decreases |frames|
  {
    if frames == [] then (0, 0)
    else
      var first := EncodeFrame(varint, frames[0]);
      if k < |first| then (0, k)
      else
        var r := Whole(varint, frames[1..], k - |first|);
        OneFrameMore(varint, frames, r.0);
        (r.0 + 1, r.1)
  }

  lemma CutInside(varint: bool, frames: seq<Bytes>, j: nat, left: nat)
    requires j < |frames| && left < |EncodeFrame(varint, frames[j])|
    ensures var all, head := EncodeFrames(varint, frames), |EncodeFrames(varint, frames[..j])|;
            head + left <= |all| && all[head..head + left] == EncodeFrame(varint, frames[j])[..left]
  {
    hide EncodeFrame;
    EncodeFramesConcat(varint, frames[..j], frames[j..]);
    assert frames == frames[..j] + frames[j..];
    var first, more := EncodeFrame(varint, frames[j]), EncodeFrames(varint, frames[j..][1..]);
    assert EncodeFrames(varint, frames[j..]) == first + more;
    var head := EncodeFrames(varint, frames[..j]);
    hide EncodeFrames;
    assert (head + (first + more))[|head|..|head| + left] == first[..left];
  }

  /**
   Cut anywhere, the stream yields the whole frames before the cut and ends cleanly exactly
   if the cut falls between two frames.
   */
  lemma CutStream(varint: bool, max: nat, frames: seq<Bytes>, k: nat)
    requires Sendable(max, frames) && k <= |EncodeFrames(varint, frames)|
    ensures var (j, left) := Whole(varint, frames, k);
            Reads(varint, max, EncodeFrames(varint, frames)[..k])
              == (frames[..j], if left == 0 then CleanEnd else Truncated)
  {
    hide Reads, EncodeFrame;
    EmptyEnds(varint, max);
    var (j, left) := Whole(varint, frames, k);
    var all, head := EncodeFrames(varint, frames), EncodeFrames(varint, frames[..j]);
    var rest := all[|head|..k];
    assert all[..k] == head + rest;
    FramesBefore(varint, max, frames[..j], rest);
    if left > 0 {
      CutInside(varint, frames, j, left);
      PartOfFrame(varint, max, frames[j], left);
    } else {
      assert rest == [];
    }
    assert frames[..j] + [] == frames[..j];
  }

  lemma CleanExactlyBetweenFrames(varint: bool, max: nat, frames: seq<Bytes>, k: nat)
    requires Sendable(max, frames) && k <= |EncodeFrames(varint, frames)|
    ensures Reads(varint, max, EncodeFrames(varint, frames)[..k]).1 == CleanEnd
            <==> exists j | 0 <= j <= |frames| :: EncodeFrames(varint, frames)[..k] == EncodeFrames(varint, frames[..j])
  {
    CutStream(varint, max, frames, k);
    var (j, left) := Whole(varint, frames, k);
    var part := EncodeFrames(varint, frames)[..k];
    if left == 0 {
      assert part == EncodeFrames(varint, frames[..j]);
    }
    forall i | 0 <= i <= |frames| && part == EncodeFrames(varint, frames[..i])
      ensures Reads(varint, max, part).1 == CleanEnd
    {
      FramesRoundTrip(varint, max, frames[..i]);
    }
  }

  // ---------------------------------------------------------------------------
  // Writing
  // ---------------------------------------------------------------------------

  /** How the writer below answers a call: it takes some bytes, is not ready, or fails. */
  datatype Answer = Accept(n: nat) | NotReady | Fail

  datatype Poll = Ready | Pending | Failed

  const MAX_SLICES: nat := 64
  const DIRECT_MIN: nat := 4096

  function Last(queue: seq<Bytes>): Bytes
    requires queue != []
  {
    queue[|queue| - 1]
  }

  predicate NonEmpty(queue: seq<Bytes>) {
    forall i | 0 <= i < |queue| :: queue[i] != []
  }

  lemma FlattenSome(queue: seq<Bytes>, cnt: nat)
    requires cnt <= |queue|
    ensures |Flatten(queue[..cnt])| <= |Flatten(queue)|
    ensures NonEmpty(queue) && cnt > 0 ==> |Flatten(queue[..cnt])| > 0
  {
    FlattenConcat(queue[..cnt], queue[cnt..]);
    assert queue == queue[..cnt] + queue[cnt..];
  }

  predicate Accepting(met: seq<Answer>) {
    forall i | 0 <= i < |met| :: met[i].Accept? && met[i].n > 0
  }

  function Room(met: seq<Answer>): nat {
    if met == [] then 0 else (if met[0].Accept? then met[0].n else 0) + Room(met[1..])
  }

  /**
   Writing went on as long as bytes were pending and the writer accepted some of them. It is
   pending only because the writer was not ready, and failed only because the writer failed or
   accepted nothing. The writer got at least one byte for each answer and no more than it accepted.
   */
  ghost predicate Polled(asked: seq<Answer>, left: seq<Answer>, wrote: int, pending: nat, r: Poll) {
    && |left| <= |asked| && left == asked[|asked| - |left|..]
    && var met := asked[..|asked| - |left|];
       var took := if Accepting(met) then met else met[..|met| - 1];
       && Accepting(took) && |took| <= wrote <= Room(took)
       && match r
          case Ready => pending == 0 && took == met
          case Pending => pending > 0 && if took == met then left == [] else met[|met| - 1] == NotReady
          case Failed => pending > 0 && took != met && met[|met| - 1] in {Fail, Accept(0)}
  }

  lemma {:induction false} RoomAppend(met: seq<Answer>, a: Answer)
    requires a.Accept?
    ensures Room(met + [a]) == Room(met) + a.n
  {
    if met == [] {
      assert [] + [a] == [a];
    } else {
      assert (met + [a])[0] == met[0] && (met + [a])[1..] == met[1..] + [a];
      RoomAppend(met[1..], a);
    }
  }

  lemma AcceptMore(asked: seq<Answer>, used: nat)
    requires used < |asked| && Accepting(asked[..used]) && asked[used].Accept?
    ensures asked[used].n > 0 ==> Accepting(asked[..used + 1])
    ensures Room(asked[..used + 1]) == Room(asked[..used]) + asked[used].n
  {
    assert asked[..used + 1] == asked[..used] + [asked[used]];
    RoomAppend(asked[..used], asked[used]);
    hide Room;
    assert forall i | 0 <= i < used :: asked[..used + 1][i] == asked[..used][i];
  }

  lemma NothingMet(asked: seq<Answer>)
    ensures Accepting(asked[..0]) && Room(asked[..0]) == 0
  {
  }

  /** The answer met last, if any, ends the writing. */
  lemma Stopped(asked: seq<Answer>, used: nat, last: nat, wrote: int, pending: nat, r: Poll)
    requires used <= |asked| && last <= 1 && used + last <= |asked|
    requires Accepting(asked[..used]) && used <= wrote <= Room(asked[..used])
    requires r.Ready? ==> pending == 0 && last == 0
    requires r.Pending? ==> pending > 0 && if last == 0 then used == |asked| else asked[used] == NotReady
    requires r.Failed? ==> pending > 0 && last == 1 && asked[used] in {Fail, Accept(0)}
    ensures Polled(asked, asked[used + last..], wrote, pending, r)
  {
    hide Room;
    var met := asked[..used + last];
    assert |asked| - |asked[used + last..]| == used + last;
    if last == 0 {
      assert met == asked[..used];
    } else {
      assert met[..used] == asked[..used] && met[used] == asked[used];
    }
  }

  class FrameSink {
    const varint: bool
    const vectored: bool
    const backpressure: nat
    var queue: seq<Bytes>
    var queued: nat
    var buf: Bytes
    /** The writer below: what it has taken, and how it will answer. */
    var written: Bytes
    var answers: seq<Answer>
    ghost var accepted: seq<Bytes>

    ghost function Output(): Bytes
      reads this
    {
      written + Flatten(queue) + buf
    }

    /** Everything accepted has been written, is queued or is buffered, in this order. */
    ghost predicate Valid()
      reads this
    {
      queued == |Flatten(queue)| && NonEmpty(queue) && Output() == EncodeFrames(varint, accepted)
    }

    function PendingBytes(): nat
      reads this
    {
      queued + |buf|
    }

    constructor (varint: bool, vectored: bool, capacity: nat, answers: seq<Answer>)
      ensures Valid() && accepted == [] && written == []
      ensures this.varint == varint && this.vectored == vectored && backpressure == capacity
    {
      this.varint, this.vectored, backpressure := varint, vectored, capacity;
      queue, queued, buf, written, this.answers, accepted := [], 0, [], [], answers, [];
    }

    /** Removes bytes that have been written from the front of the queue. */
    method Drop(count: nat)
      requires count <= |Flatten(queue)| && NonEmpty(queue)
      modifies this`queue
      ensures Flatten(queue) == Flatten(old(queue))[count..] && NonEmpty(queue)
    {
      var n := count;
      ghost var all := Flatten(queue);
      while n > 0
        invariant 0 <= n <= |Flatten(queue)| && NonEmpty(queue)
        invariant Flatten(queue)[n..] == all[count..]
        decreases n
      {
        var front := queue[0];
        ghost var tail := Flatten(queue[1..]);
        if n < |front| {
          assert (front + tail)[n..] == front[n..] + tail;
          var shorter := [front[n..]] + queue[1..];
          assert shorter[1..] == queue[1..];
          queue := shorter;
          n := 0;
        } else {
          assert (front + tail)[n..] == tail[n - |front|..];
          n := n - |front|;
          queue := queue[1..];
        }
      }
      assert Flatten(queue)[0..] == Flatten(queue);
    }

    method PollWritePending() returns (r: Poll)
      requires Valid()
      modifies this`queue, this`queued, this`buf, this`written, this`answers
      ensures Valid() && old(written) <= written
      ensures r.Ready? ==> written == EncodeFrames(varint, accepted)
      ensures Polled(old(answers), answers, |written| - |old(written)|, PendingBytes(), r)
      ensures |written| + PendingBytes() == |old(written)| + old(PendingBytes())
    {
      hide EncodeFrames, Flatten, Room, Accepting, Polled;
      if buf != [] {
        FlattenAppend(queue, buf);
        assert written + Flatten(queue) + buf == written + (Flatten(queue) + buf) + [];
        queued := queued + |buf|;
        queue, buf := queue + [buf], [];
      }
      ghost var asked := answers;
      ghost var used: nat := 0;
      NothingMet(asked);
      while queued > 0
        invariant Valid() && buf == [] && old(written) <= written
        invariant used <= |asked| && answers == asked[used..] && Accepting(asked[..used])
        invariant used <= |written| - |old(written)| <= Room(asked[..used])
        invariant |written| + queued == |old(written)| + old(PendingBytes())
        decreases |answers|
      {
        if answers == [] {
          Stopped(asked, used, 0, |written| - |old(written)|, queued, Pending);
          return Pending;
        }
        var answer := answers[0];
        answers := answers[1..];
        match answer {
          case NotReady =>
            Stopped(asked, used, 1, |written| - |old(written)|, queued, Pending);
            return Pending;
          case Fail =>
            Stopped(asked, used, 1, |written| - |old(written)|, queued, Failed);
            return Failed;
          case Accept(most) =>
            AcceptMore(asked, used);
            var some := WriteSome(most);
            if !some {
              Stopped(asked, used, 1, |written| - |old(written)|, queued, Failed);
              return Failed;
            }
            used := used + 1;
        }
      }
      NoneQueued();
      assert written + [] + [] == written;
      Stopped(asked, used, 0, |written| - |old(written)|, 0, Ready);
      r := Ready;
    }

    /** One vectored write, of which the transport accepts at most so many bytes. */
    method WriteSome(most: nat) returns (some: bool)
      requires Valid() && buf == [] && queued > 0
      modifies this`queue, this`queued, this`written
      ensures Valid() && old(written) <= written
      ensures some <==> most > 0
      ensures |written| == |old(written)| + Min(most, |Flatten(old(queue)[..Min(|old(queue)|, MAX_SLICES)])|)
      ensures |written| + queued == |old(written)| + old(queued)
      ensures some ==> |written| > |old(written)|
      ensures !some ==> written == old(written) && queue == old(queue) && queued == old(queued)
    {
      hide EncodeFrames, Flatten;
      var cnt := Min(|queue|, MAX_SLICES);
      SomeQueued();
      FlattenSome(queue, cnt);
      var offered := Gather(cnt);
      var n := Min(most, |offered|);
      some := n > 0;
      if some {
        OfferedIsFront(queue, cnt, n);
        ghost var all := Flatten(queue);
        assert written + all + [] == (written + offered[..n]) + all[n..] + [];
        written := written + offered[..n];
        queued := queued - n;
        Drop(n);
      }
    }

    /** The slices offered to a vectored write. */
    method Gather(cnt: nat) returns (r: Bytes)
      requires cnt <= |queue|
      ensures r == Flatten(queue[..cnt])
    {
      r := [];
      for i := 0 to cnt
        invariant r == Flatten(queue[..i])
      {
        assert queue[..i + 1] == queue[..i] + [queue[i]];
        FlattenAppend(queue[..i], queue[i]);
        r := r + queue[i];
      }
    }

    lemma SomeQueued()
      requires queued == |Flatten(queue)| && queued > 0
      ensures queue != []
    {
    }

    lemma NoneQueued()
      requires queued == |Flatten(queue)| && queued == 0 && NonEmpty(queue)
      ensures queue == [] && Flatten(queue) == []
    {
    }

    /** Accepts a frame only when little is waiting to be written. */
    method PollReady() returns (r: Poll)
      requires Valid()
      modifies this`queue, this`queued, this`buf, this`written, this`answers
      ensures Valid() && old(written) <= written
      ensures r.Ready? ==> PendingBytes() < backpressure || PendingBytes() == 0
      ensures if old(PendingBytes()) < backpressure then
                r.Ready? && written == old(written) && queue == old(queue) && buf == old(buf) && answers == old(answers)
              else Polled(old(answers), answers, |written| - |old(written)|, PendingBytes(), r)
    {
      r := Ready;
      if PendingBytes() >= backpressure {
        r := PollWritePending();
      }
    }

    method StartSend(item: Bytes)
      requires Valid()
      modifies this`queue, this`queued, this`buf, this`accepted
      ensures Valid() && accepted == old(accepted) + [item]
      ensures PendingBytes() == old(PendingBytes()) + |EncodeFrame(varint, item)|
      ensures if vectored && |item| >= DIRECT_MIN then buf == [] && |queue| == |old(queue)| + 2 && Last(queue) == item
              else queue == old(queue)
    {
      hide EncodeFrames, Flatten, EncodeFrame, Header;
      EncodeFramesAppend(varint, accepted, item);
      var header := Header(varint, |item|);
      assert EncodeFrame(varint, item) == header + item by { FrameIsHeaderAndData(varint, item); }
      accepted := accepted + [item];
      if |item| >= DIRECT_MIN && vectored {
        var front := buf + header;
        QueueTwo(written, queue, buf, header, item);
        queued := queued + |front| + |item|;
        queue, buf := queue + [front, item], [];
      } else {
        assert (written + Flatten(queue) + buf) + (header + item) == written + Flatten(queue) + (buf + header + item);
        buf := buf + header + item;
      }
    }
  }

  lemma FrameIsHeaderAndData(varint: bool, frame: Bytes)
    ensures EncodeFrame(varint, frame) == Header(varint, |frame|) + frame
  {
  }

  lemma QueueTwo(written: Bytes, queue: seq<Bytes>, buf: Bytes, header: Bytes, item: Bytes)
    ensures var all := Flatten(queue + [buf + header, item]);
            && |all| == |Flatten(queue)| + |buf| + |header| + |item|
            && written + all + [] == (written + Flatten(queue) + buf) + (header + item)
  {
    FlattenAppend(queue, buf + header);
    FlattenAppend(queue + [buf + header], item);
    assert queue + [buf + header] + [item] == queue + [buf + header, item];
  }

  lemma OfferedIsFront(queue: seq<Bytes>, cnt: nat, n: nat)
    requires cnt <= |queue| && n <= |Flatten(queue[..cnt])|
    ensures n <= |Flatten(queue)| && Flatten(queue)[..n] == Flatten(queue[..cnt])[..n]
  {
    FlattenConcat(queue[..cnt], queue[cnt..]);
    assert queue == queue[..cnt] + queue[cnt..];
  }

  /**
   Whatever part of the output has been written, a reader gets the first of the accepted
   frames, and all of them with a clean end once everything has been written.
   */
  lemma WrittenIsRead(varint: bool, max: nat, accepted: seq<Bytes>, written: Bytes)
    requires Sendable(max, accepted) && written <= EncodeFrames(varint, accepted)
    ensures Reads(varint, max, written).0 <= accepted
    ensures written == EncodeFrames(varint, accepted) ==> Reads(varint, max, written) == (accepted, CleanEnd)
  {
    CutStream(varint, max, accepted, |written|);
    assert EncodeFrames(varint, accepted)[..|written|] == written;
    FramesRoundTrip(varint, max, accepted);
  }
}
