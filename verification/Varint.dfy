/** Unsigned LEB128 for 32-bit values (section 7.6 of DWARF 5), encoder and byte-wise decoder. */
module Varint {
  import opened Types
  import opened Frames

  const VARINT_MAX: nat := 5

  /** Largest value of the fifth byte: 32 bits leave four for it. */
  const MAX_LAST: nat := 15

  function Encode(n: nat): (bs: Bytes)
    ensures bs != []
    decreases n
  {
    if n < 128 then [n] else [n % 128 + 128] + Encode(n / 128)
  }

  /** The encoder fills a buffer of five bytes and reports how many it used. */
  method VarintU32(n: u32, out: array<u8>) returns (used: nat)
    requires out.Length == VARINT_MAX
    modifies out
    ensures 1 <= used <= VARINT_MAX && out[..used] == Encode(n)
  {
    var value: nat := n;
    used := VARINT_MAX;
    EncodeShort(n, VARINT_MAX);
    for i := 0 to VARINT_MAX
      invariant out[..i] + Encode(value) == Encode(n)
      invariant |Encode(n)| <= VARINT_MAX
    {
      if value < 128 {
        out[i] := value;
        return i + 1;
      }
      out[i] := value % 128 + 128;
      assert out[..i + 1] + Encode(value / 128) == out[..i] + Encode(value);
      value := value / 128;
    }
    assert false;
  }

  function Pow128(k: nat): nat {
    if k == 0 then 1 else 128 * Pow128(k - 1)
  }

  lemma {:induction false} EncodeShort(n: nat, k: nat)
    requires k > 0 && n < Pow128(k)
    ensures |Encode(n)| <= k
    decreases k
  {
    if n >= 128 {
      EncodeShort(n / 128, k - 1);
    }
  }

  /** Moved up by seven bits, `pos` times. */
  function Shift(x: nat, pos: nat): nat {
    if pos == 0 then x else 128 * Shift(x, pos - 1)
  }

  lemma {:induction false} ShiftSum(a: nat, b: nat, pos: nat)
    ensures Shift(a + b, pos) == Shift(a, pos) + Shift(b, pos)
    decreases pos
  {
    if pos > 0 {
      ShiftSum(a, b, pos - 1);
    }
  }

  lemma {:induction false} ShiftMore(x: nat, pos: nat)
    ensures Shift(128 * x, pos) == Shift(x, pos + 1)
    decreases pos
  {
    if pos > 0 {
      ShiftMore(x, pos - 1);
    }
  }

  lemma {:induction false} ShiftOrder(a: nat, b: nat, pos: nat)
    requires a <= b
    ensures Shift(a, pos) <= Shift(b, pos)
    decreases pos
  {
    if pos > 0 {
      ShiftOrder(a, b, pos - 1);
    }
  }

  lemma {:induction false} ShiftOne(pos: nat)
    ensures Shift(1, pos) == Pow128(pos)
    decreases pos
  {
    if pos > 0 {
      ShiftOne(pos - 1);
    }
  }

  datatype Decoder = Decoder(value: nat, pos: nat)

  const IDLE := Decoder(0, 0)

  datatype Decoded = More | Done(n: nat) | Invalid

  predicate Between(d: Decoder) {
    d.pos < VARINT_MAX && d.value < Pow128(d.pos)
  }

  /** The bits of the byte go above those already there; what exceeds 32 bits is lost. */
  function Step(d: Decoder, b: u8): (Decoder, Decoded) {
    var value := d.value + Shift(b % 128, d.pos) % U32_BOUND;
    if b < 128 then
      if d.pos == VARINT_MAX - 1 && b > MAX_LAST then (Decoder(value, d.pos), Invalid) else (IDLE, Done(value))
    else
      (Decoder(value, d.pos + 1), if d.pos + 1 < VARINT_MAX then More else Invalid)
  }

  class VarintDecoder {
    var value: nat
    var pos: nat

    function Value(): Decoder
      reads this
    {
      Decoder(value, pos)
    }

    constructor ()
      ensures Value() == IDLE
    {
      value, pos := 0, 0;
    }

    predicate IsEmpty()
      reads this
    {
      pos == 0
    }

    method Decode(b: u8) returns (r: Decoded)
      requires Between(Value())
      modifies this
      ensures (Value(), r) == Step(old(Value()), b)
      ensures !r.Invalid? ==> Between(Value())
    {
      StepBetween(Value(), b);
      var carry := b % 128;
      value := value + Shift(carry, pos) % U32_BOUND;
      if b < 128 {
        if pos == VARINT_MAX - 1 && b > MAX_LAST {
          return Invalid;
        }
        r := Done(value);
        pos, value := 0, 0;
      } else {
        pos := pos + 1;
        r := if pos < VARINT_MAX then More else Invalid;
      }
    }
  }

  lemma Powers()
    ensures Pow128(0) == 1 && Pow128(1) == 128 && Pow128(2) == 0x4000 && Pow128(3) == 0x20_0000
            && Pow128(4) == 0x1000_0000
  {
    assert Pow128(2) == 128 * Pow128(1);
    assert Pow128(3) == 128 * Pow128(2);
    assert Pow128(4) == 128 * Pow128(3);
  }

  /** Seven more bits above those already there. */
  lemma SevenMore(d: Decoder, carry: nat)
    requires Between(d) && carry < 128
    ensures d.value + Shift(carry, d.pos) < Pow128(d.pos + 1)
    ensures d.pos < VARINT_MAX - 1 || carry <= MAX_LAST ==> d.value + Shift(carry, d.pos) < U32_BOUND
  {
    ShiftOne(d.pos);
    ShiftSum(1, 127, d.pos);
    ShiftOrder(carry, 127, d.pos);
    ShiftMore(1, d.pos);
    ShiftOne(d.pos + 1);
    Powers();
    if d.pos == VARINT_MAX - 1 && carry <= MAX_LAST {
      ShiftOrder(carry, MAX_LAST, 4);
      assert Shift(15, 3) == 128 * Shift(15, 2) && Shift(15, 2) == 128 * Shift(15, 1);
    }
    hide Shift;
  }

  lemma StepBetween(d: Decoder, b: u8)
    requires Between(d)
    ensures !Step(d, b).1.Invalid? ==> Between(Step(d, b).0)
    ensures var v := Step(d, b); v.1.Done? ==> b < 128 && v.1.n == d.value + Shift(b, d.pos) < U32_BOUND
    ensures var v := Step(d, b); v.1.More? ==> b >= 128 && v.0.value == d.value + Shift(b - 128, d.pos)
  {
    SevenMore(d, b % 128);
    hide Shift, Pow128;
    assert Pow128(0) == 1 by { Powers(); }
  }

  datatype Fed = Partial(d: Decoder) | Got(n: nat, rest: Bytes) | Bad

  /** Bytes are fed until a value is complete; afterwards the decoder is idle again. */
  function Feed(d: Decoder, bs: Bytes): Fed
    decreases |bs|
  {
    if bs == [] then Partial(d)
    else
      var (d', r) := Step(d, bs[0]);
      match r
      case More => Feed(d', bs[1..])
      case Done(n) => Got(n, bs[1..])
      case Invalid => Bad
  }

  // ---------------------------------------------------------------------------
  // What the decoder accepts
  // ---------------------------------------------------------------------------

  /** Seven bits a byte, least significant first. */
  function Meaning(bs: Bytes): nat {
    if bs == [] then 0 else bs[0] % 128 + 128 * Meaning(bs[1..])
  }

  predicate Terminated(bs: Bytes) {
    bs != [] && bs[|bs| - 1] < 128 && forall i | 0 <= i < |bs| - 1 :: bs[i] >= 128
  }

  /** One value: terminated, at most five bytes, and the fifth within its four bits. */
  predicate WellFormed(bs: Bytes) {
    Terminated(bs) && |bs| <= VARINT_MAX && (|bs| == VARINT_MAX ==> bs[VARINT_MAX - 1] <= MAX_LAST)
  }

  predicate Fits(pos: nat, bs: Bytes) {
    && Terminated(bs) && pos + |bs| <= VARINT_MAX && (pos + |bs| == VARINT_MAX ==> bs[|bs| - 1] <= MAX_LAST)
  }

  lemma MoreFits(b: u8, tail: Bytes, pos: nat)
    requires b >= 128 && Fits(pos + 1, tail)
    ensures Fits(pos, [b] + tail) && Meaning([b] + tail) == b - 128 + 128 * Meaning(tail)
  {
    var bs := [b] + tail;
    assert bs[1..] == tail;
    assert forall i | 0 < i < |bs| :: bs[i] == tail[i - 1];
  }

  lemma {:induction false} FeedFits(d: Decoder, bs: Bytes, rest: Bytes)
    requires Between(d) && Fits(d.pos, bs)
    ensures Feed(d, bs + rest) == Got(d.value + Shift(Meaning(bs), d.pos), rest)
    decreases |bs|
  {
    hide Pow128, Shift;
    StepBetween(d, bs[0]);
    assert (bs + rest)[0] == bs[0] && (bs + rest)[1..] == bs[1..] + rest;
    if |bs| == 1 {
      assert bs[1..] == [] && bs[1..] + rest == rest;
      assert Meaning(bs) == bs[0];
    } else {
      var tail := bs[1..];
      FeedFits(Step(d, bs[0]).0, tail, rest);
      MoreFits(bs[0], tail, d.pos);
      assert bs == [bs[0]] + tail;
      ShiftMore(Meaning(tail), d.pos);
      ShiftSum(bs[0] - 128, 128 * Meaning(tail), d.pos);
      hide Meaning, Fits, Between;
    }
  }

  lemma {:induction false} FedFits(d: Decoder, bs: Bytes)
    requires Between(d) && Feed(d, bs).Got?
    ensures |Feed(d, bs).rest| < |bs| && Feed(d, bs).rest == bs[|bs| - |Feed(d, bs).rest|..]
    ensures Fits(d.pos, bs[..|bs| - |Feed(d, bs).rest|])
    decreases |bs|
  {
    StepBetween(d, bs[0]);
    var (d', r) := Step(d, bs[0]);
    if r.More? {
      FedFits(d', bs[1..]);
      var rest := Feed(d', bs[1..]).rest;
      var used := bs[1..][..|bs| - 1 - |rest|];
      assert bs[..|bs| - |rest|] == [bs[0]] + used;
      MoreFits(bs[0], used, d.pos);
      hide Fits;
    } else {
      assert bs[..1][0] == bs[0];
    }
  }

  /** The decoder accepts exactly the well-formed strings and yields what they mean. */
  lemma DecodesExactly(bs: Bytes, rest: Bytes)
    ensures WellFormed(bs) ==> Feed(IDLE, bs + rest) == Got(Meaning(bs), rest)
    ensures Feed(IDLE, bs).Got? && Feed(IDLE, bs).rest == [] ==> WellFormed(bs)
  {
    Powers();
    if WellFormed(bs) {
      FeedFits(IDLE, bs, rest);
    }
    if Feed(IDLE, bs).Got? && Feed(IDLE, bs).rest == [] {
      FedFits(IDLE, bs);
      assert bs[..|bs|] == bs;
    }
  }

  // ---------------------------------------------------------------------------
  // Encodings
  // ---------------------------------------------------------------------------

  lemma {:induction false} EncodeWellFormed(n: nat, pos: nat)
    requires pos < VARINT_MAX && Shift(n, pos) < U32_BOUND
    ensures Fits(pos, Encode(n)) && Meaning(Encode(n)) == n
    decreases n
  {
    hide Shift;
    if n < 128 {
      assert Meaning(Encode(n)[1..]) == 0;
      FifthByte(n, pos);
    } else {
      SmallerTail(n, pos);
      EncodeWellFormed(n / 128, pos + 1);
      MoreFits(n % 128 + 128, Encode(n / 128), pos);
      hide Fits, Meaning;
    }
  }

  lemma FifthPlace(n: nat)
    requires Shift(n, VARINT_MAX - 1) < U32_BOUND
    ensures n <= MAX_LAST
  {
    assert Shift(16, 3) == 128 * Shift(16, 2) && Shift(16, 2) == 128 * Shift(16, 1);
    assert Shift(16, 4) == U32_BOUND;
    if n >= 16 {
      ShiftOrder(16, n, 4);
    }
  }

  lemma FifthByte(n: nat, pos: nat)
    requires pos < VARINT_MAX && Shift(n, pos) < U32_BOUND
    ensures pos == VARINT_MAX - 1 ==> n <= MAX_LAST
  {
    if pos == VARINT_MAX - 1 {
      FifthPlace(n);
    }
  }

  lemma SmallerTail(n: nat, pos: nat)
    requires pos < VARINT_MAX && Shift(n, pos) < U32_BOUND && n >= 128
    ensures pos + 1 < VARINT_MAX && Shift(n / 128, pos + 1) < U32_BOUND
  {
    FifthByte(n, pos);
    ShiftMore(n / 128, pos);
    ShiftOrder(128 * (n / 128), n, pos);
  }

  /** Every 32-bit value takes one to five bytes, and no accepted string for it is shorter. */
  lemma EncodesMinimally(n: u32, bs: Bytes)
    ensures WellFormed(Encode(n)) && Meaning(Encode(n)) == n
    ensures WellFormed(bs) && Meaning(bs) == n ==> |Encode(n)| <= |bs|
  {
    Powers();
    EncodeWellFormed(n, 0);
    MeaningBound(bs);
    if bs != [] && Meaning(bs) == n {
      EncodeShort(n, |bs|);
    }
  }

  lemma {:induction false} MeaningBound(bs: Bytes)
    ensures Meaning(bs) < Pow128(|bs|)
    decreases |bs|
  {
    if bs != [] {
      MeaningBound(bs[1..]);
    }
  }

  /** Shorter is not the same as only: the decoder also takes padded forms. */
  lemma PaddedZero()
    ensures WellFormed([128, 0]) && Meaning([128, 0]) == 0 && Encode(0) == [0]
  {
    assert Meaning([0]) == 0 by { assert [0][1..] == []; }
    assert [128, 0][1..] == [0];
  }

  /** No encoding begins another. */
  lemma PrefixFree(a: u32, b: u32)
    requires Encode(a) <= Encode(b)
    ensures a == b
  {
    EncodesMinimally(a, []);
    EncodesMinimally(b, []);
    var x, y := Encode(a), Encode(b);
    var rest := y[|x|..];
    assert y == x + rest;
    DecodesExactly(x, rest);
    DecodesExactly(y, []);
    assert y + [] == y;
  }

  function EncodeAll(ns: seq<u32>): Bytes {
    if ns == [] then [] else Encode(ns[0]) + EncodeAll(ns[1..])
  }

  /** All complete values of a byte string, and what is left. */
  function DecodeAll(d: Decoder, bs: Bytes): (seq<nat>, Fed)
    requires Between(d)
    decreases |bs|
  {
    match Feed(d, bs)
    case Got(n, rest) =>
      FedFits(d, bs);
      var (ns, f) := DecodeAll(IDLE, rest);
      ([n] + ns, f)
    case f => ([], f)
  }

  /** Any concatenation of encodings decodes to the same list and leaves the decoder idle. */
  lemma {:induction false} StreamRoundTrip(ns: seq<u32>)
    ensures DecodeAll(IDLE, EncodeAll(ns)) == (ns, Partial(IDLE))
    decreases |ns|
  {
    if ns != [] {
      EncodesMinimally(ns[0], []);
      DecodesExactly(Encode(ns[0]), EncodeAll(ns[1..]));
      StreamRoundTrip(ns[1..]);
      assert [ns[0]] + ns[1..] == ns;
    }
  }

  /** Feeding in portions is the same as feeding at once. */
  lemma {:induction false} FeedMore(d: Decoder, a: Bytes, b: Bytes)
    ensures Feed(d, a + b) == match Feed(d, a)
                              case Partial(d') => Feed(d', b)
                              case Got(n, rest) => Got(n, rest + b)
                              case Bad => Bad
    decreases |a|
  {
    if a == [] {
      assert a + b == b;
    } else {
      assert (a + b)[1..] == a[1..] + b && (a + b)[0] == a[0];
      FeedMore(Step(d, a[0]).0, a[1..], b);
    }
  }
}
