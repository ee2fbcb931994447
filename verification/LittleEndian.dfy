/** Fixed-width integers, least significant byte first, and flag bytes. */
module LittleEndian {
  import opened Types
  import opened Frames

  function Pow256(k: nat): nat {
    if k == 0 then 1 else 0x100 * Pow256(k - 1)
  }

  function LE(n: nat, width: nat): (bs: Bytes)
    ensures |bs| == width
  {
    if width == 0 then [] else [n % 0x100] + LE(n / 0x100, width - 1)
  }

  function FromLE(bs: Bytes): nat {
    if bs == [] then 0
    else
      var low: nat := bs[0];
      low + 0x100 * FromLE(bs[1..])
  }

  lemma {:induction false} FromLEBack(n: nat, width: nat)
    requires n < Pow256(width)
    ensures FromLE(LE(n, width)) == n
    decreases width
  {
    if width > 0 {
      FromLEBack(n / 0x100, width - 1);
    }
  }

  lemma Widths()
    ensures Pow256(2) == 0x1_0000 && Pow256(4) == U32_BOUND && Pow256(8) == 0x1_0000_0000_0000_0000
  {
    assert Pow256(1) == 0x100;
    assert Pow256(3) == 0x100 * Pow256(2);
    assert Pow256(5) == 0x100 * Pow256(4);
    assert Pow256(6) == 0x100 * Pow256(5);
    assert Pow256(7) == 0x100 * Pow256(6);
  }

  /** A number whose bits, from the lowest, are the given flags. */
  function Pack(flags: seq<bool>): (n: nat)
  {
    if flags == [] then 0 else (if flags[0] then 1 else 0) + 2 * Pack(flags[1..])
  }

  predicate Bit(n: nat, k: nat) {
    if k == 0 then n % 2 == 1 else Bit(n / 2, k - 1)
  }

  lemma {:induction false} PackedBit(flags: seq<bool>, k: nat)
    ensures Bit(Pack(flags), k) <==> k < |flags| && flags[k]
    decreases k
  {
    if flags == [] {
      if k > 0 { PackedBit([], k - 1); }
    } else if k > 0 {
      PackedBit(flags[1..], k - 1);
      assert Pack(flags) / 2 == Pack(flags[1..]);
    }
  }

  lemma {:induction false} PackSmall(flags: seq<bool>)
    requires |flags| <= 8
    ensures Pack(flags) < 0x100
    decreases |flags|
  {
    PackBelow(flags, 8);
  }

  function Pow2(k: nat): nat {
    if k == 0 then 1 else 2 * Pow2(k - 1)
  }

  lemma {:induction false} PackBelow(flags: seq<bool>, k: nat)
    requires |flags| <= k
    ensures Pack(flags) < Pow2(k)
    ensures Pow2(8) == 0x100
    decreases k
  {
    assert Pow2(8) == 4 * Pow2(6) && Pow2(6) == 4 * Pow2(4) && Pow2(4) == 4 * Pow2(2);
    if flags != [] {
      PackBelow(flags[1..], k - 1);
    } else {
      PowPositive(k);
    }
  }

  lemma PowPositive(k: nat)
    ensures Pow2(k) > 0
  {
  }
}
