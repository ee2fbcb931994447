/**
 What a sender pays. Every frame costs one credit a byte and at least one; nothing leaves that
 the credits obtained do not pay for, and what was obtained is counted from the waits alone.
 */
module SenderCredits {
  import opened Types
  import opened Frames
  import opened DataSender

  /** What the receiver charges for a frame. */
  function Charge(buf: Bytes): nat {
    Max(|buf|, 1)
  }

  function Charges(bufs: seq<Bytes>): nat {
    if bufs == [] then 0 else Charge(bufs[0]) + Charges(bufs[1..])
  }

  function Total(ns: seq<nat>): nat {
    if ns == [] then 0 else ns[0] + Total(ns[1..])
  }

  /**
   The credits that waits give to parts needing so many each: all that has arrived, but no
   more than the current part still lacks.
   */
  function Given(needs: seq<nat>, grants: seq<nat>): nat
    decreases |grants|
  {
    if needs == [] || grants == [] then 0
    else if grants[0] < needs[0] then grants[0] + Given([needs[0] - grants[0]] + needs[1..], grants[1..])
    else needs[0] + Given(needs[1..], grants[1..])
  }

  /** No wait follows once the need is met. */
  predicate Fits(need: nat, grants: seq<nat>)
    decreases |grants|
  {
    grants == []
    || (need > 0 && if grants[0] < need then Fits(need - grants[0], grants[1..]) else |grants| == 1)
  }

  function Lack(need: nat): seq<nat> {
    if need == 0 then [] else [need]
  }

  /** The waits that have ended. */
  function Ended<T>(before: seq<T>, after: seq<T>): seq<T>
    requires |after| <= |before|
  {
    before[..|before| - |after|]
  }

  predicate Follows(before: Waits, after: Waits) {
    && |after.grants| <= |before.grants| && after.grants == before.grants[|before.grants| - |after.grants|..]
    && |after.rooms| <= |before.rooms| && after.rooms == before.rooms[|before.rooms| - |after.rooms|..]
  }

  /** No wait gives more than has arrived, and no part gets more than it needs. */
  lemma {:induction false} GivenAtMost(needs: seq<nat>, grants: seq<nat>)
    ensures Given(needs, grants) <= Total(grants) && Given(needs, grants) <= Total(needs)
    decreases |grants|
  {
    if needs != [] && grants != [] {
      if grants[0] < needs[0] {
        GivenAtMost([needs[0] - grants[0]] + needs[1..], grants[1..]);
        assert ([needs[0] - grants[0]] + needs[1..])[1..] == needs[1..];
      } else {
        GivenAtMost(needs[1..], grants[1..]);
      }
    }
  }

  lemma EndedFirst<T>(before: seq<T>, after: seq<T>)
    requires before != [] && |after| < |before|
    ensures Ended(before, after) == [before[0]] + Ended(before[1..], after)
  {
  }

  lemma GivenFirst(need: nat, g: nat, more: seq<nat>)
    requires 0 < need
    ensures Given([need], [g] + more) == Min(g, need) + Given(Lack(need - Min(g, need)), more)
    ensures Fits(need - Min(g, need), more) ==> Fits(need, [g] + more)
  {
    assert ([g] + more)[1..] == more;
    assert [need - Min(g, need)] + [need][1..] == [need - Min(g, need)] && [need][1..] == [];
  }

  lemma ChargesFirst(buf: Bytes, more: seq<Bytes>)
    ensures Charges([buf] + more) == Charge(buf) + Charges(more)
  {
    assert ([buf] + more)[1..] == more;
  }

  /** What one part needs beyond the credits at hand. */
  predicate Pays(need: nat, chunk: nat, credits: nat, waits: Waits, r: Emitted, lost: nat) {
    && Follows(waits, r.waits)
    && var grants := Ended(waits.grants, r.waits.grants);
       && credits <= need
       && Charges(r.bufs) + r.credits + lost == credits + Given(Lack(need - credits), grants)
       && Fits(need - credits, grants)
       && lost <= chunk
       && (r.done ==> lost == 0 && r.credits == 0 && Charges(r.bufs) == need)
  }

  lemma {:induction false} EmitPays(data: Bytes, chunk: nat, credits: nat, waits: Waits) returns (lost: nat)
    requires chunk > 0 && credits <= |data|
    ensures Pays(|data|, chunk, credits, waits, Emit(data, chunk, credits, waits), lost)
    decreases |data|, if credits == 0 then 1 else 0
  {
    hide Pays, Emit;
    lost := 0;
    if data == [] {
      NothingPays(chunk, waits);
    } else if credits == 0 {
      EmitGranted(data, chunk, waits);
      if waits.grants == [] || waits.grants[0] == 0 {
        GivenUpPays(|data|, chunk, waits);
      } else {
        lost := EmitPays(data, chunk, Min(waits.grants[0], |data|), AfterGrant(waits));
        GrantedPays(data, chunk, waits, Emit(data, chunk, Min(waits.grants[0], |data|), AfterGrant(waits)), lost);
      }
    } else {
      var at := Min(Min(|data|, chunk), credits);
      EmitPiece(data, chunk, credits, waits);
      if !Queued(waits) {
        lost := at;
        UnqueuedPays(|data|, chunk, credits, waits, at);
      } else {
        lost := EmitPays(data[at..], chunk, credits - at, AfterQueue(waits));
        QueuedPays(data, chunk, credits, waits, Emit(data[at..], chunk, credits - at, AfterQueue(waits)), lost);
      }
    }
  }

  lemma EmitGranted(data: Bytes, chunk: nat, waits: Waits)
    requires chunk > 0 && data != []
    ensures Emit(data, chunk, 0, waits)
            == if waits.grants == [] || waits.grants[0] == 0 then Emitted([], 0, AfterGrant(waits), false)
               else Emit(data, chunk, Min(waits.grants[0], |data|), AfterGrant(waits))
  {
    EmitBegins([], data, chunk, 0, waits);
    AfterNone(Emit(data, chunk, 0, waits));
    if waits.grants != [] && waits.grants[0] > 0 {
      AfterNone(Emit(data, chunk, Min(waits.grants[0], |data|), AfterGrant(waits)));
    }
    hide Emit, After;
  }

  lemma EmitPiece(data: Bytes, chunk: nat, credits: nat, waits: Waits)
    requires chunk > 0 && data != [] && credits > 0
    ensures var at := Min(Min(|data|, chunk), credits);
            Emit(data, chunk, credits, waits)
            == if !Queued(waits) then Emitted([], credits - at, AfterQueue(waits), false)
               else After([data[..at]], Emit(data[at..], chunk, credits - at, AfterQueue(waits)))
  {
    EmitStep([], data, chunk, credits, waits);
    AfterNone(Emit(data, chunk, credits, waits));
    hide Emit;
    assert [] + [data[..Min(Min(|data|, chunk), credits)]] == [data[..Min(Min(|data|, chunk), credits)]];
  }

  lemma NothingPays(chunk: nat, waits: Waits)
    requires chunk > 0
    ensures Pays(0, chunk, 0, waits, Emit([], chunk, 0, waits), 0)
  {
    assert Ended(waits.grants, waits.grants) == [];
  }

  lemma GivenUpPays(need: nat, chunk: nat, waits: Waits)
    requires need > 0 && (waits.grants == [] || waits.grants[0] == 0)
    ensures Pays(need, chunk, 0, waits, Emitted([], 0, AfterGrant(waits), false), 0)
  {
    var grants := Ended(waits.grants, AfterGrant(waits).grants);
    if waits.grants == [] {
      assert grants == [];
    } else {
      assert grants == [0];
      GivenFirst(need, 0, []);
      assert [0 as nat] + [] == [0];
    }
    hide Given, Fits, Ended;
  }

  lemma UnqueuedPays(need: nat, chunk: nat, credits: nat, waits: Waits, at: nat)
    requires at <= credits <= need && at <= chunk
    ensures Pays(need, chunk, credits, waits, Emitted([], credits - at, AfterQueue(waits), false), at)
  {
    assert Ended(waits.grants, AfterQueue(waits).grants) == [];
  }

  lemma QueuedPays(data: Bytes, chunk: nat, credits: nat, waits: Waits, r: Emitted, lost: nat)
    requires chunk > 0 && 0 < credits <= |data| && Queued(waits)
    requires var at := Min(Min(|data|, chunk), credits);
             Pays(|data| - at, chunk, credits - at, AfterQueue(waits), r, lost)
    ensures var at := Min(Min(|data|, chunk), credits);
            Pays(|data|, chunk, credits, waits, After([data[..at]], r), lost)
  {
    var at := Min(Min(|data|, chunk), credits);
    ChargesFirst(data[..at], r.bufs);
    hide Given, Fits;
  }

  lemma AfterNone(r: Emitted)
    ensures After([], r) == r
  {
    assert [] + r.bufs == r.bufs;
  }

  /** Adding the wait for credits in front. */
  lemma GrantedPays(data: Bytes, chunk: nat, waits: Waits, r: Emitted, lost: nat)
    requires data != [] && waits.grants != [] && waits.grants[0] > 0
    requires Pays(|data|, chunk, Min(waits.grants[0], |data|), AfterGrant(waits), r, lost)
    ensures Pays(|data|, chunk, 0, waits, r, lost)
  {
    hide Given, Fits, Charges, Charge, Ended;
    var g := waits.grants[0];
    assert AfterGrant(waits) == Waits(waits.grants[1..], waits.rooms);
    FollowsGrant(waits, r.waits);
    EndedFirst(waits.grants, r.waits.grants);
    GivenFirst(|data|, g, Ended(waits.grants[1..], r.waits.grants));
    hide Follows;
  }

  lemma FollowsGrant(before: Waits, after: Waits)
    requires before.grants != [] && Follows(Waits(before.grants[1..], before.rooms), after)
    ensures Follows(before, after) && |after.grants| < |before.grants|
  {
  }

  /** One part of a message, empty or not, paid for from nothing. */
  lemma PartPays(data: Bytes, chunk: nat, waits: Waits) returns (lost: nat)
    requires chunk > 0
    ensures Pays(Charge(data), chunk, 0, waits, EmitPart(data, chunk, 0, waits), lost)
  {
    if data != [] {
      lost := EmitPays(data, chunk, 0, waits);
    } else if waits.grants == [] || waits.grants[0] == 0 {
      lost := 0;
      GivenUpPays(1, chunk, waits);
    } else {
      EndedFirst(waits.grants, waits.grants[1..]);
      assert Ended(waits.grants[1..], waits.grants[1..]) == [] && [waits.grants[0]] + [] == [waits.grants[0]];
      GivenFirst(1, waits.grants[0], []);
      lost := if Queued(AfterGrant(waits)) then 0 else 1;
      ChargesFirst(data, []);
      assert [data] + [] == [data];
    }
  }

  // ---------------------------------------------------------------------------
  // Messages in parts
  // ---------------------------------------------------------------------------

  function Needs(parts: seq<Bytes>): seq<nat> {
    if parts == [] then [] else [Charge(parts[0])] + Needs(parts[1..])
  }

  /** The parts an operation sends, if it gets to its end. */
  function Parts(op: Op): seq<Bytes>
    requires !op.Try?
  {
    match op
    case Whole(data) => [data]
    case Streamed(parts, Finish) => parts + [[]]
    case Streamed(parts, Final(data)) => parts + [data]
    case Streamed(parts, Dropped) => parts
  }

  /** Waits that fit the first part and fill it leave the others to the waits after them. */
  lemma {:induction false} GivenOn(need: nat, rest: seq<nat>, a: seq<nat>, b: seq<nat>)
    requires need > 0 && Fits(need, a)
    ensures Given([need], a) == need ==> Given([need] + rest, a + b) == need + Given(rest, b)
    ensures Given([need] + rest, a) == Given([need], a)
    decreases |a|
  {
    assert ([need] + rest)[1..] == rest && [need][1..] == [];
    if a != [] {
      assert (a + b)[0] == a[0] && (a + b)[1..] == a[1..] + b;
      if a[0] < need {
        assert [need - a[0]] + [] == [need - a[0]];
        GivenOn(need - a[0], rest, a[1..], b);
      } else {
        assert a[1..] + b == b && a[1..] == [];
      }
    }
  }

  predicate AllPays(needs: seq<nat>, chunk: nat, waits: Waits, r: Emitted, lost: nat) {
    && Follows(waits, r.waits)
    && Charges(r.bufs) + r.credits + lost == Given(needs, Ended(waits.grants, r.waits.grants))
    && lost <= chunk
    && (r.done ==> lost == 0 && r.credits == 0 && Charges(r.bufs) == Total(needs))
  }

  lemma EndedOn<T>(a: seq<T>, b: seq<T>, c: seq<T>)
    requires |c| <= |b| <= |a| && b == a[|a| - |b|..]
    ensures Ended(a, c) == Ended(a, b) + Ended(b, c)
  {
  }

  lemma {:induction false} ChargesConcat(a: seq<Bytes>, b: seq<Bytes>)
    ensures Charges(a + b) == Charges(a) + Charges(b)
  {
    if a == [] {
      assert a + b == b;
    } else {
      ChargesConcat(a[1..], b);
      assert (a + b)[1..] == a[1..] + b;
    }
  }

  lemma PartThenRest(need: nat, rest: seq<nat>, chunk: nat, waits: Waits, a: Emitted, b: Emitted, lost: nat)
    requires need > 0 && Pays(need, chunk, 0, waits, a, 0) && a.done && AllPays(rest, chunk, a.waits, b, lost)
    ensures AllPays([need] + rest, chunk, waits, b.(bufs := a.bufs + b.bufs), lost)
  {
    var g1, g2 := Ended(waits.grants, a.waits.grants), Ended(a.waits.grants, b.waits.grants);
    EndedOn(waits.grants, a.waits.grants, b.waits.grants);
    GivenOn(need, rest, g1, g2);
    ChargesConcat(a.bufs, b.bufs);
    assert ([need] + rest)[1..] == rest;
    hide Given, Fits, Charges;
  }

  lemma PartFails(need: nat, rest: seq<nat>, chunk: nat, waits: Waits, a: Emitted, lost: nat)
    requires need > 0 && Pays(need, chunk, 0, waits, a, lost) && !a.done
    ensures AllPays([need] + rest, chunk, waits, a, lost)
  {
    GivenOn(need, rest, Ended(waits.grants, a.waits.grants), []);
    hide Given, Fits, Charges;
  }

  lemma {:induction false} PartsPay(parts: seq<Bytes>, chunk: nat, waits: Waits) returns (lost: nat)
    requires chunk > 0
    ensures AllPays(Needs(parts), chunk, waits, EmitParts(parts, chunk, 0, waits), lost)
    decreases |parts|
  {
    if parts == [] {
      lost := 0;
      assert Ended(waits.grants, waits.grants) == [];
    } else {
      lost := PartPays(parts[0], chunk, waits);
      var a := EmitPart(parts[0], chunk, 0, waits);
      if a.done {
        lost := PartsPay(parts[1..], chunk, a.waits);
        PartThenRest(Charge(parts[0]), Needs(parts[1..]), chunk, waits, a,
          EmitParts(parts[1..], chunk, 0, a.waits), lost);
      } else {
        PartFails(Charge(parts[0]), Needs(parts[1..]), chunk, waits, a, lost);
      }
      hide EmitPart, Pays, AllPays;
    }
  }

  /** A streamed message is its parts and its ending, sent one after the other. */
  lemma {:induction false} EmitPartsConcat(parts: seq<Bytes>, last: Bytes, chunk: nat, credits: nat, waits: Waits)
    requires chunk > 0
    ensures var a := EmitParts(parts, chunk, credits, waits);
            EmitParts(parts + [last], chunk, credits, waits)
            == if !a.done then a else After(a.bufs, EmitPart(last, chunk, a.credits, a.waits))
    decreases |parts|
  {
    hide EmitPart;
    if parts == [] {
      assert parts + [last] == [last] && [last][1..] == [];
      var b := EmitPart(last, chunk, credits, waits);
      AfterNone(b);
      assert b.bufs + [] == b.bufs;
    } else {
      assert (parts + [last])[0] == parts[0] && (parts + [last])[1..] == parts[1..] + [last];
      var a := EmitPart(parts[0], chunk, credits, waits);
      EmitPartsConcat(parts[1..], last, chunk, a.credits, a.waits);
      var m := EmitParts(parts[1..], chunk, a.credits, a.waits);
      var b := EmitPart(last, chunk, m.credits, m.waits);
      assert a.bufs + (m.bufs + b.bufs) == a.bufs + m.bufs + b.bufs;
    }
  }

  lemma OpIsParts(op: Op, chunk: nat, waits: Waits)
    requires chunk > 0 && !op.Try?
    ensures var r := EmitParts(Parts(op), chunk, 0, waits);
            EmitOp(op, chunk, waits) == if op.Streamed? && op.ending.Dropped? then r.(done := false) else r
  {
    hide EmitPart;
    match op
    case Whole(data) =>
      EmitPartsConcat([], data, chunk, 0, waits);
      assert [] + [data] == [data];
      AfterNone(EmitPart(data, chunk, 0, waits));
    case Streamed(parts, Finish) => EmitPartsConcat(parts, [], chunk, 0, waits);
    case Streamed(parts, Final(data)) => EmitPartsConcat(parts, data, chunk, 0, waits);
    case Streamed(parts, Dropped) =>
  }

  /**
   For every operation, chunk size and waits: the charges of all frames, the credits left over
   and those of a piece given up are the credits obtained; these are counted from the waits for
   credits alone, none of which gives more than has arrived. A completed operation has paid
   exactly what its parts cost, and has nothing left.
   */
  lemma OpPays(op: Op, chunk: nat, waits: Waits) returns (lost: nat)
    requires chunk > 0 && !op.Try?
    ensures var r := EmitOp(op, chunk, waits);
            && Follows(waits, r.waits)
            && var obtained := Given(Needs(Parts(op)), Ended(waits.grants, r.waits.grants));
               && Charges(r.bufs) + r.credits + lost == obtained <= Total(Ended(waits.grants, r.waits.grants))
               && lost <= chunk
               && (r.done ==> lost == 0 && r.credits == 0 && Charges(r.bufs) == Total(Needs(Parts(op))))
  {
    lost := PartsPay(Parts(op), chunk, waits);
    OpIsParts(op, chunk, waits);
    GivenAtMost(Needs(Parts(op)), Ended(waits.grants, EmitOp(op, chunk, waits).waits.grants));
    hide EmitParts, EmitOp, Given, Charges, Total, Needs, Parts;
  }

  // ---------------------------------------------------------------------------
  // How many pieces
  // ---------------------------------------------------------------------------

  /** Pieces are full chunks, but for the last one that each wait for credits pays for. */
  predicate Few(chunk: nat, credits: nat, waits: Waits, r: Emitted) {
    && |r.waits.grants| <= |waits.grants|
    && var ended := |waits.grants| - |r.waits.grants| + if credits > 0 then 1 else 0;
       |r.bufs| * chunk <= ended * chunk + Charges(r.bufs)
  }

  lemma NoneFew(chunk: nat, credits: nat, waits: Waits, r: Emitted)
    requires r.bufs == [] && |r.waits.grants| <= |waits.grants|
    ensures Few(chunk, credits, waits, r)
  {
    var ended: nat := |waits.grants| - |r.waits.grants| + if credits > 0 then 1 else 0;
    assert ended * chunk >= 0;
  }

  /** The wait that brought the credits pays for the piece that uses them up. */
  lemma GrantedFew(chunk: nat, g: nat, waits: Waits, r: Emitted)
    requires waits.grants != [] && g > 0 && Few(chunk, g, AfterGrant(waits), r)
    ensures Few(chunk, 0, waits, r)
  {
    hide Charges;
  }

  lemma PieceFew(data: Bytes, at: nat, chunk: nat, credits: nat, waits: Waits, r: Emitted)
    requires 0 < credits && 0 < at == Min(Min(|data|, chunk), credits)
    requires Few(chunk, credits - at, AfterQueue(waits), r) && (at == |data| ==> r.bufs == [])
    ensures Few(chunk, credits, waits, After([data[..at]], r))
  {
    ChargesFirst(data[..at], r.bufs);
    hide Charges;
    var ended: nat := |waits.grants| - |r.waits.grants|;
    assert (|r.bufs| + 1) * chunk == |r.bufs| * chunk + chunk;
    assert (ended + 1) * chunk == ended * chunk + chunk;
    if at == |data| {
      NoCharges(r.bufs);
      assert ended * chunk >= 0;
    }
  }

  lemma NoCharges(bufs: seq<Bytes>)
    requires bufs == []
    ensures Charges(bufs) == 0
  {
  }

  lemma EmptyEmits(chunk: nat, credits: nat, waits: Waits)
    requires chunk > 0
    ensures Emit([], chunk, credits, waits) == Emitted([], credits, waits, true)
  {
  }

  lemma {:induction false} EmitFew(data: Bytes, chunk: nat, credits: nat, waits: Waits)
    requires chunk > 0
    ensures Few(chunk, credits, waits, Emit(data, chunk, credits, waits))
    decreases |data|, if credits == 0 then 1 else 0
  {
    hide Emit, Few;
    if data == [] {
      EmptyEmits(chunk, credits, waits);
      NoneFew(chunk, credits, waits, Emit(data, chunk, credits, waits));
    } else if credits == 0 {
      EmitGranted(data, chunk, waits);
      if waits.grants == [] || waits.grants[0] == 0 {
        NoneFew(chunk, 0, waits, Emit(data, chunk, 0, waits));
      } else {
        var g := Min(waits.grants[0], |data|);
        EmitFew(data, chunk, g, AfterGrant(waits));
        GrantedFew(chunk, g, waits, Emit(data, chunk, g, AfterGrant(waits)));
      }
    } else {
      var at := Min(Min(|data|, chunk), credits);
      EmitPiece(data, chunk, credits, waits);
      if !Queued(waits) {
        NoneFew(chunk, credits, waits, Emit(data, chunk, credits, waits));
      } else {
        EmitFew(data[at..], chunk, credits - at, AfterQueue(waits));
        EmptyEmits(chunk, credits - at, AfterQueue(waits));
        PieceFew(data, at, chunk, credits, waits, Emit(data[at..], chunk, credits - at, AfterQueue(waits)));
      }
    }
  }
  lemma PartFew(data: Bytes, chunk: nat, waits: Waits)
    requires chunk > 0
    ensures Few(chunk, 0, waits, EmitPart(data, chunk, 0, waits))
  {
    if data != [] {
      EmitFew(data, chunk, 0, waits);
    } else {
      ChargesFirst(data, []);
      assert [data] + [] == [data];
      hide Charges;
    }
  }

  lemma FewThenFew(chunk: nat, waits: Waits, a: Emitted, b: Emitted)
    requires Few(chunk, 0, waits, a) && Few(chunk, 0, a.waits, b)
    ensures Few(chunk, 0, waits, After(a.bufs, b))
  {
    ChargesConcat(a.bufs, b.bufs);
    hide Charges;
    var m, n: nat := |waits.grants| - |a.waits.grants|, |a.waits.grants| - |b.waits.grants|;
    assert (m + n) * chunk == m * chunk + n * chunk;
    assert (|a.bufs| + |b.bufs|) * chunk == |a.bufs| * chunk + |b.bufs| * chunk;
  }

  lemma {:induction false} PartsFew(parts: seq<Bytes>, chunk: nat, waits: Waits)
    requires chunk > 0
    ensures Few(chunk, 0, waits, EmitParts(parts, chunk, 0, waits))
    decreases |parts|
  {
    hide EmitPart;
    if parts == [] {
      NoneFew(chunk, 0, waits, EmitParts(parts, chunk, 0, waits));
    } else {
      PartFew(parts[0], chunk, waits);
      var a := EmitPart(parts[0], chunk, 0, waits);
      if a.done {
        var lost := PartPays(parts[0], chunk, waits);
        PartsFew(parts[1..], chunk, a.waits);
        hide Few;
        FewThenFew(chunk, waits, a, EmitParts(parts[1..], chunk, 0, a.waits));
      }
    }
  }

  /**
   Pieces are as large as they can be: the frames of an operation are no more than the full
   chunks that were paid for and one more for each wait for credits that has ended.
   */
  lemma OpFew(op: Op, chunk: nat, waits: Waits)
    requires chunk > 0 && !op.Try?
    ensures var r := EmitOp(op, chunk, waits);
            && |r.waits.grants| <= |waits.grants|
            && |r.bufs| * chunk <= (|waits.grants| - |r.waits.grants|) * chunk + Charges(r.bufs)
  {
    hide EmitOp, EmitParts, Charges;
    PartsFew(Parts(op), chunk, waits);
    OpIsParts(op, chunk, waits);
  }

  // ---------------------------------------------------------------------------
  // What completes
  // ---------------------------------------------------------------------------

  /** Nobody gives up, and there is room for as many pieces as could be needed. */
  predicate Patient(waits: Waits, cost: nat) {
    && (forall i | 0 <= i < |waits.grants| :: waits.grants[i] > 0)
    && (forall i | 0 <= i < |waits.rooms| :: waits.rooms[i])
    && |waits.rooms| >= cost
  }

  lemma {:induction false} EmitCompletes(data: Bytes, chunk: nat, credits: nat, waits: Waits)
    requires chunk > 0 && credits <= |data| && Patient(waits, |data|)
    requires Given(Lack(|data| - credits), waits.grants) == |data| - credits
    ensures var r := Emit(data, chunk, credits, waits);
            r.done && |r.waits.rooms| + |data| >= |waits.rooms|
    decreases |data|, if credits == 0 then 1 else 0
  {
    hide Emit;
    if data == [] {
      EmitNothing([], chunk, credits, waits);
    } else if credits == 0 {
      EmitGranted(data, chunk, waits);
      var g := waits.grants[0];
      assert [g] + waits.grants[1..] == waits.grants;
      GivenFirst(|data|, g, waits.grants[1..]);
      EmitCompletes(data, chunk, Min(g, |data|), AfterGrant(waits));
    } else {
      EmitPiece(data, chunk, credits, waits);
      var at := Min(Min(|data|, chunk), credits);
      EmitCompletes(data[at..], chunk, credits - at, AfterQueue(waits));
    }
  }

  lemma PartCompletes(data: Bytes, chunk: nat, waits: Waits)
    requires chunk > 0 && Patient(waits, Charge(data)) && Given([Charge(data)], waits.grants) == Charge(data)
    ensures var r := EmitPart(data, chunk, 0, waits);
            r.done && |r.waits.rooms| + Charge(data) >= |waits.rooms|
  {
    if data != [] {
      EmitCompletes(data, chunk, 0, waits);
      hide Emit;
    }
  }

  /** Grants that meet all needs meet the first. */
  lemma {:induction false} GivenHead(need: nat, rest: seq<nat>, grants: seq<nat>)
    requires Given([need] + rest, grants) == need + Total(rest)
    ensures Given([need], grants) == need
    decreases |grants|
  {
    assert ([need] + rest)[1..] == rest && [need][1..] == [];
    if grants != [] && grants[0] < need {
      assert [need - grants[0]] + [] == [need - grants[0]];
      GivenHead(need - grants[0], rest, grants[1..]);
    } else if grants == [] {
    } else {
      assert Given([], grants[1..]) == 0;
    }
  }

  lemma {:induction false} PartsComplete(parts: seq<Bytes>, chunk: nat, waits: Waits)
    requires chunk > 0 && Patient(waits, Total(Needs(parts)))
    requires Given(Needs(parts), waits.grants) == Total(Needs(parts))
    ensures EmitParts(parts, chunk, 0, waits).done
    decreases |parts|
  {
    if parts != [] {
      var need, rest := Charge(parts[0]), Needs(parts[1..]);
      assert Needs(parts)[1..] == rest;
      GivenHead(need, rest, waits.grants);
      PartCompletes(parts[0], chunk, waits);
      var a := EmitPart(parts[0], chunk, 0, waits);
      var lost := PartPays(parts[0], chunk, waits);
      var g := Ended(waits.grants, a.waits.grants);
      assert g + a.waits.grants == waits.grants;
      GivenOn(need, rest, g, a.waits.grants);
      PatientAfter(waits, a.waits, need + Total(rest), need);
      hide EmitPart, Given, Fits, Charges, Patient;
      PartsComplete(parts[1..], chunk, a.waits);
    }
  }

  lemma PatientAfter(before: Waits, after: Waits, cost: nat, spent: nat)
    requires Patient(before, cost) && Follows(before, after) && spent <= cost && |after.rooms| + spent >= |before.rooms|
    ensures Patient(after, cost - spent)
  {
  }

  lemma {:induction false} GivenMore(needs: seq<nat>, a: seq<nat>, b: seq<nat>)
    ensures Given(needs, a) <= Given(needs, a + b)
    decreases |a|
  {
    if needs != [] && a != [] {
      assert (a + b)[0] == a[0] && (a + b)[1..] == a[1..] + b;
      if a[0] < needs[0] {
        GivenMore([needs[0] - a[0]] + needs[1..], a[1..], b);
      } else {
        GivenMore(needs[1..], a[1..], b);
      }
    }
  }

  /**
   An operation that nobody gives up, with room in the queue, completes exactly if the waits
   for credits give what its parts cost.
   */
  lemma CompletesExactlyIf(op: Op, chunk: nat, waits: Waits)
    requires chunk > 0 && !op.Try? && !(op.Streamed? && op.ending.Dropped?)
    requires Patient(waits, Total(Needs(Parts(op))))
    ensures EmitOp(op, chunk, waits).done <==> Given(Needs(Parts(op)), waits.grants) == Total(Needs(Parts(op)))
  {
    var needs := Needs(Parts(op));
    OpIsParts(op, chunk, waits);
    if Given(needs, waits.grants) == Total(needs) {
      PartsComplete(Parts(op), chunk, waits);
    }
    if EmitOp(op, chunk, waits).done {
      var lost := OpPays(op, chunk, waits);
      var r := EmitOp(op, chunk, waits);
      assert Ended(waits.grants, r.waits.grants) + r.waits.grants == waits.grants;
      GivenMore(needs, Ended(waits.grants, r.waits.grants), r.waits.grants);
      GivenAtMost(needs, waits.grants);
    }
    hide EmitParts, EmitOp, Given, Charges, Total, Needs, Parts;
  }

  // ---------------------------------------------------------------------------
  // Without waiting
  // ---------------------------------------------------------------------------

  /** Pieces as large as a chunk, up to the room there is. */
  lemma {:induction false} AtOncePieces(data: Bytes, chunk: nat, room: nat)
    requires chunk > 0
    ensures var r := EmitAtOnce(data, chunk, room);
            && Charges(r.bufs) <= |data|
            && (r.done ==> Charges(r.bufs) == |data|)
            && (!r.done ==> |r.bufs| == room && Charges(r.bufs) == room * chunk < |data|)
    decreases |data|
  {
    if data != [] && room > 0 {
      var at := Min(|data|, chunk);
      AtOncePieces(data[at..], chunk, room - 1);
      ChargesFirst(data[..at], EmitAtOnce(data[at..], chunk, room - 1).bufs);
      assert room * chunk == chunk + (room - 1) * chunk;
    }
  }

  /** Data is sent without waiting exactly if the credits are there and the queue has room for all its chunks. */
  lemma TryExactly(data: Bytes, chunk: nat, creditsThere: bool, room: nat, waits: Waits)
    requires chunk > 0
    ensures var r := EmitOp(Try(data, creditsThere, room), chunk, waits);
            && (r.done <==> creditsThere && Charge(data) <= room * chunk)
            && Charges(r.bufs) == (if !creditsThere then 0 else if r.done then Charge(data) else room * chunk)
            && r.waits == waits
  {
    if creditsThere && data == [] {
      ChargesFirst(data, []);
      assert [data] + [] == [data];
      assert room > 0 ==> room * chunk >= chunk by { assert room > 0 ==> (room - 1) * chunk >= 0; }
    } else if creditsThere {
      AtOncePieces(data, chunk, room);
      var r := EmitAtOnce(data, chunk, room);
      if r.done {
        AtMostRoom(r.bufs, chunk, room);
      }
    }
  }

  lemma {:induction false} AtMostRoom(bufs: seq<Bytes>, chunk: nat, room: nat)
    requires |bufs| <= room && forall i | 0 <= i < |bufs| :: 1 <= |bufs[i]| <= chunk
    ensures Charges(bufs) <= room * chunk
  {
    if bufs == [] {
      assert room * chunk >= 0;
    } else {
      AtMostRoom(bufs[1..], chunk, room - 1);
      assert room * chunk == chunk + (room - 1) * chunk;
    }
  }
}
