/** Allocation of port numbers of both sides, with reservations and a quarantine for released numbers. */
module Allocator {
  import opened Types

  const PRE_ALLOCATED_LIMIT: nat := 131072

  /** Largest number of ports plus largest connection request queue. */
  const MAX_LIMIT: nat := 0x4000_FFFF

  // ---------------------------------------------------------------------------
  // The wrapping search
  // ---------------------------------------------------------------------------

  function Wrap(n: u32): u32 {
    (n + 1) % U32_BOUND
  }

  /** Steps from just after `n` up to `free`. */
  function Distance(n: u32, free: u32): nat {
    (free - n - 1) % U32_BOUND
  }

  lemma DistanceFalls(n: u32, free: u32)
    requires Wrap(n) != free
    ensures Distance(Wrap(n), free) < Distance(n, free)
  {
  }

  lemma CloserTo(n: u32, free: u32)
    requires n != free
    ensures (free - Wrap(n)) % U32_BOUND < (free - n) % U32_BOUND
  {
  }

  /** The first number after `n`, wrapping around, that is not blocked. */
  function Search(n: u32, blocked: set<u32>, free: u32): (r: u32)
    requires free !in blocked
    ensures r !in blocked
    decreases Distance(n, free)
  {
    if Wrap(n) !in blocked then Wrap(n)
    else
      DistanceFalls(n, free);
      Search(Wrap(n), blocked, free)
  }

  /** The result does not depend on which number is known to be free. */
  lemma {:induction false} SearchSame(n: u32, blocked: set<u32>, a: u32, b: u32)
    requires a !in blocked && b !in blocked
    ensures Search(n, blocked, a) == Search(n, blocked, b)
    decreases Distance(n, a)
  {
    if Wrap(n) in blocked {
      DistanceFalls(n, a);
      SearchSame(Wrap(n), blocked, a, b);
    }
  }

  /** It is the nearest: everything passed on the way is blocked. */
  lemma {:induction false} SearchNearest(n: u32, blocked: set<u32>, free: u32, other: u32)
    requires free !in blocked && other !in blocked
    ensures Distance(n, Search(n, blocked, free)) <= Distance(n, other)
    decreases Distance(n, free)
  {
    if Wrap(n) in blocked {
      DistanceFalls(n, free);
      SearchNearest(Wrap(n), blocked, free, other);
      DistanceFalls(n, other);
      DistanceFalls(n, Search(n, blocked, free));
      StepBack(n, other);
      StepBack(n, Search(n, blocked, free));
    }
  }

  lemma StepBack(n: u32, free: u32)
    requires Wrap(n) != free
    ensures Distance(n, free) == Distance(Wrap(n), free) + 1
  {
  }

  function Below(n: nat): set<nat> {
    if n == 0 then {} else Below(n - 1) + {n - 1}
  }

  lemma {:induction false} BelowSize(n: nat)
    ensures |Below(n)| == n && forall x | x in Below(n) :: x < n
    decreases n
  {
    if n > 0 {
      BelowSize(n - 1);
    }
  }

  lemma {:induction false} SubsetSize(a: set<nat>, b: set<nat>)
    requires a <= b
    ensures |a| <= |b|
    decreases |a|
  {
    if a != {} {
      var x :| x in a;
      SubsetSize(a - {x}, b - {x});
    }
  }

  /** Fewer blocked numbers than there are numbers leave one free. */
  lemma SomeFree(blocked: set<u32>)
    requires |blocked| < U32_BOUND
    ensures exists free: u32 :: free !in blocked
  {
    BelowSize(U32_BOUND);
    if Below(U32_BOUND) <= blocked {
      SubsetSize(Below(U32_BOUND), blocked);
    } else {
      var n :| n in Below(U32_BOUND) && n !in blocked;
      var free: u32 := n;
      assert free !in blocked;
    }
  }

  ghost function FreeOne(blocked: set<u32>): (free: u32)
    requires |blocked| < U32_BOUND
    ensures free !in blocked
  {
    SomeFree(blocked);
    var free: u32 :| free !in blocked;
    free
  }

  ghost function NextFree(n: u32, blocked: set<u32>): (r: u32)
    requires |blocked| < U32_BOUND
    ensures r !in blocked
  {
    Search(n, blocked, FreeOne(blocked))
  }

  // ---------------------------------------------------------------------------
  // Specification
  // ---------------------------------------------------------------------------

  datatype Ports = Ports(
    localUsed: set<u32>,
    preAllocated: set<u32>,
    remoteUsed: set<u32>,
    reserved: nat,
    quarantine: seq<u32>,
    limit: nat,
    next: u32)

  function Elements(q: seq<u32>): set<u32> {
    set i | 0 <= i < |q| :: q[i]
  }

  predicate NoDuplicates(q: seq<u32>) {
    forall i, j | 0 <= i < j < |q| :: q[i] != q[j]
  }

  function InUse(p: Ports): nat {
    |p.localUsed| + |p.remoteUsed| + p.reserved
  }

  predicate Available(p: Ports) {
    InUse(p) < p.limit
  }

  function Blocked(p: Ports): set<u32> {
    p.localUsed + p.preAllocated + Elements(p.quarantine)
  }

  /** No number is held twice, and what is used or reserved stays within the limit. */
  predicate Inv(p: Ports) {
    && p.limit <= MAX_LIMIT
    && p.localUsed !! p.preAllocated && p.localUsed !! Elements(p.quarantine)
         && p.preAllocated !! Elements(p.quarantine)
    && NoDuplicates(p.quarantine) && |p.quarantine| <= p.limit + 1
    && InUse(p) <= p.limit
    && |p.preAllocated| <= PRE_ALLOCATED_LIMIT
  }

  lemma {:induction false} ElementsSize(q: seq<u32>)
    ensures |Elements(q)| <= |q|
    decreases |q|
  {
    if q != [] {
      var k := |q| - 1;
      ElementsSize(q[..k]);
      assert Elements(q) == Elements(q[..k]) + {q[k]};
    }
  }

  lemma ElementsAppend(q: seq<u32>, n: u32)
    ensures Elements(q + [n]) == Elements(q) + {n}
    ensures NoDuplicates(q) && n !in Elements(q) ==> NoDuplicates(q + [n])
  {
    var r := q + [n];
    forall x
      ensures x in Elements(r) <==> x in Elements(q) || x == n
    {
      if x in Elements(q) {
        var i :| 0 <= i < |q| && q[i] == x;
        assert r[i] == x;
      }
      assert r[|q|] == n;
    }
    assert forall i | 0 <= i < |q| :: q[i] in Elements(q);
  }

  lemma ElementsTail(q: seq<u32>)
    requires q != [] && NoDuplicates(q)
    ensures Elements(q[1..]) == Elements(q) - {q[0]} && NoDuplicates(q[1..])
  {
    forall x
      ensures x in Elements(q[1..]) <==> x in Elements(q) && x != q[0]
    {
      if x in Elements(q) && x != q[0] {
        var i :| 0 <= i < |q| && q[i] == x;
        assert q[1..][i - 1] == x;
      }
      if x in Elements(q[1..]) {
        var i :| 0 <= i < |q[1..]| && q[1..][i] == x;
        assert q[i + 1] == x;
      }
    }
  }

  lemma {:induction false} TrimKeeps(q: seq<u32>, max: nat)
    requires NoDuplicates(q)
    ensures NoDuplicates(Trim(q, max)) && Elements(Trim(q, max)) <= Elements(q)
    decreases |q|
  {
    if |q| > max {
      ElementsTail(q);
      TrimKeeps(q[1..], max);
    }
  }

  /** Blocked numbers are far fewer than there are numbers, so the search ends. */
  lemma BlockedFew(p: Ports)
    requires Inv(p)
    ensures |Blocked(p)| < U32_BOUND
  {
    ElementsSize(p.quarantine);
    UnionSize(p.localUsed, p.preAllocated);
    UnionSize(p.localUsed + p.preAllocated, Elements(p.quarantine));
  }

  lemma UnionSize(a: set<u32>, b: set<u32>)
    ensures |a + b| <= |a| + |b|
  {
    assert a + b == a + (b - a);
    assert |b - a| <= |b| by { DifferenceSize(b, a); }
  }

  lemma DifferenceSize(b: set<u32>, a: set<u32>)
    ensures |b - a| <= |b|
  {
    assert b == (b - a) + (b * a);
  }

  function New(limit: nat): Ports {
    Ports({}, {}, {}, 0, [], limit, 0)
  }

  ghost function AllocateLocal(p: Ports): (Ports, Option<u32>)
    requires Inv(p)
  {
    if !Available(p) then (p, None)
    else
      BlockedFew(p);
      var n := NextFree(p.next, Blocked(p));
      (p.(localUsed := p.localUsed + {n}, next := n), Some(n))
  }

  ghost function PreAllocate(p: Ports): (Ports, Option<u32>)
    requires Inv(p)
  {
    if |p.preAllocated| >= PRE_ALLOCATED_LIMIT then (p, None)
    else
      BlockedFew(p);
      var n := NextFree(p.next, Blocked(p));
      (p.(preAllocated := p.preAllocated + {n}, next := n), Some(n))
  }

  function AllocatePreAllocated(p: Ports, n: u32): (Ports, Option<u32>) {
    if Available(p) && n !in p.localUsed && n !in p.quarantine
    then (p.(localUsed := p.localUsed + {n}, preAllocated := p.preAllocated - {n}), Some(n))
    else (p, None)
  }

  datatype RemoteResult = Exhausted | AlreadyAllocated | Allocated(n: u32)

  function AllocateRemote(p: Ports, n: u32): (Ports, RemoteResult) {
    if !Available(p) then (p, Exhausted)
    else if n in p.remoteUsed then (p, AlreadyAllocated)
    else (p.(remoteUsed := p.remoteUsed + {n}), Allocated(n))
  }

  function Reserve(p: Ports): (Ports, bool) {
    if Available(p) then (p.(reserved := p.reserved + 1), true) else (p, false)
  }

  function Unreserve(p: Ports): Ports
    requires p.reserved > 0
  {
    p.(reserved := p.reserved - 1)
  }

  function Trim(q: seq<u32>, max: nat): (r: seq<u32>)
    ensures r == if |q| > max then q[|q| - max..] else q
  {
    if |q| > max then Trim(q[1..], max) else q
  }

  function ReleaseLocal(p: Ports, n: u32): Ports {
    p.(localUsed := p.localUsed - {n}, quarantine := Trim(p.quarantine + [n], p.limit + 1))
  }

  // ---------------------------------------------------------------------------
  // Every step keeps the invariant
  // ---------------------------------------------------------------------------

  lemma AllocateLocalKeeps(p: Ports)
    requires Inv(p)
    ensures Inv(AllocateLocal(p).0)
    ensures AllocateLocal(p).1.Some? <==> Available(p)
    ensures AllocateLocal(p).1.Some? ==> AllocateLocal(p).1.value !in Blocked(p)
  {
  }

  lemma PreAllocateKeeps(p: Ports)
    requires Inv(p)
    ensures Inv(PreAllocate(p).0)
    ensures PreAllocate(p).1.Some? ==> PreAllocate(p).1.value !in Blocked(p)
  {
  }

  /** A pre-allocated number is turned down only for want of ports. */
  lemma AllocatePreAllocatedKeeps(p: Ports, n: u32)
    requires Inv(p) && n in p.preAllocated
    ensures Inv(AllocatePreAllocated(p, n).0)
    ensures AllocatePreAllocated(p, n).1.Some? <==> Available(p)
  {
    assert n in p.quarantine ==> n in Elements(p.quarantine);
    assert (p.preAllocated - {n}) + {n} == p.preAllocated;
  }

  /** A reservation always yields a local port, and a remote one unless that number is taken. */
  lemma ReservationHonoured(p: Ports, n: u32)
    requires Inv(p) && p.reserved > 0
    ensures var q := Unreserve(p);
            && Inv(q) && Available(q)
            && AllocateLocal(q).1.Some?
            && AllocateRemote(q, n).1 == (if n in p.remoteUsed then AlreadyAllocated else Allocated(n))
  {
    AllocateLocalKeeps(Unreserve(p));
  }

  lemma AllocateRemoteKeeps(p: Ports, n: u32)
    requires Inv(p)
    ensures Inv(AllocateRemote(p, n).0)
  {
  }

  lemma ReleaseLocalKeeps(p: Ports, n: u32)
    requires Inv(p) && n in p.localUsed
    ensures Inv(ReleaseLocal(p, n))
  {
    var q := p.quarantine + [n];
    ElementsAppend(p.quarantine, n);
    TrimKeeps(q, p.limit + 1);
    hide NoDuplicates, Elements;
    assert (p.localUsed - {n}) + {n} == p.localUsed;
  }

  // ---------------------------------------------------------------------------
  // Histories
  // ---------------------------------------------------------------------------

  datatype Op =
    | TryAllocate
    | TryPreAllocate
    | TryPreAllocated(n: u32)
    | DropPreAllocated(n: u32)
    | TryRemote(n: u32)
    | TryReserve
    | IntoLocal
    | IntoRemote(n: u32)
    | DropReserved
    | DropLocal(n: u32)
    | DropRemote(n: u32)

  /** Handles exist exactly for what is held, so an operation without its handle changes nothing. */
  ghost function Do(p: Ports, op: Op): Ports
    requires Inv(p)
    ensures Inv(Do(p, op)) && Do(p, op).limit == p.limit
  {
    match op
    case TryAllocate => AllocateLocalKeeps(p); AllocateLocal(p).0
    case TryPreAllocate => PreAllocateKeeps(p); PreAllocate(p).0
    case TryPreAllocated(n) =>
      if n in p.preAllocated then AllocatePreAllocatedKeeps(p, n); AllocatePreAllocated(p, n).0 else p
    case DropPreAllocated(n) =>
      assert |p.preAllocated - {n}| <= |p.preAllocated| by { DifferenceSize(p.preAllocated, {n}); }
      p.(preAllocated := p.preAllocated - {n})
    case TryRemote(n) => AllocateRemoteKeeps(p, n); AllocateRemote(p, n).0
    case TryReserve => Reserve(p).0
    case IntoLocal =>
      if p.reserved > 0 then ReservationHonoured(p, 0); AllocateLocalKeeps(Unreserve(p));
        AllocateLocal(Unreserve(p)).0 else p
    case IntoRemote(n) =>
      if p.reserved > 0 then AllocateRemoteKeeps(Unreserve(p), n); AllocateRemote(Unreserve(p), n).0 else p
    case DropReserved => if p.reserved > 0 then Unreserve(p) else p
    case DropLocal(n) => if n in p.localUsed then ReleaseLocalKeeps(p, n); ReleaseLocal(p, n) else p
    case DropRemote(n) =>
      assert |p.remoteUsed - {n}| <= |p.remoteUsed| by { DifferenceSize(p.remoteUsed, {n}); }
      p.(remoteUsed := p.remoteUsed - {n})
  }

  ghost function History(p: Ports, ops: seq<Op>): (r: Ports)
    requires Inv(p)
    ensures Inv(r) && r.limit == p.limit
    decreases |ops|
  {
    if ops == [] then p else History(Do(p, ops[0]), ops[1..])
  }

  /** The local number, if any, that an operation hands out for the first time. */
  ghost function HandedOut(p: Ports, op: Op): Option<u32>
    requires Inv(p)
  {
    match op
    case TryAllocate => AllocateLocal(p).1
    case TryPreAllocate => PreAllocate(p).1
    case IntoLocal => if p.reserved > 0 then ReservationHonoured(p, 0); AllocateLocal(Unreserve(p)).1 else None
    case _ => None
  }

  ghost function Releases(p: Ports, ops: seq<Op>): nat
    requires Inv(p)
    decreases |ops|
  {
    if ops == [] then 0
    else (if ops[0].DropLocal? && ops[0].n in p.localUsed then 1 else 0) + Releases(Do(p, ops[0]), ops[1..])
  }

  /** A quarantined number with `behind` numbers queued after it. */
  predicate QuarantinedAt(p: Ports, n: u32, behind: nat) {
    behind < |p.quarantine| && p.quarantine[|p.quarantine| - 1 - behind] == n
  }

  lemma StaysQuarantined(p: Ports, op: Op, n: u32, behind: nat)
    requires Inv(p) && QuarantinedAt(p, n, behind)
    ensures var released := op.DropLocal? && op.n in p.localUsed;
            && (!released ==> Do(p, op).quarantine == p.quarantine)
            && (released && behind + 1 <= p.limit ==> QuarantinedAt(Do(p, op), n, behind + 1))
  {
    hide NextFree, Blocked, Inv;
  }

  lemma NotHandedOut(p: Ports, op: Op, n: u32, behind: nat)
    requires Inv(p) && QuarantinedAt(p, n, behind)
    ensures HandedOut(p, op) != Some(n)
  {
    assert n in Elements(p.quarantine);
    AllocateLocalKeeps(p);
    PreAllocateKeeps(p);
    if op.IntoLocal? && p.reserved > 0 {
      ReservationHonoured(p, 0);
      AllocateLocalKeeps(Unreserve(p));
    }
    hide NextFree, Inv, Elements, AllocateLocal, PreAllocate;
  }

  lemma {:induction false} QuarantineLasts(p: Ports, ops: seq<Op>, n: u32, behind: nat, op: Op)
    requires Inv(p) && QuarantinedAt(p, n, behind) && behind + Releases(p, ops) <= p.limit
    ensures HandedOut(History(p, ops), op) != Some(n)
    decreases |ops|
  {
    if ops == [] {
      NotHandedOut(p, op, n, behind);
    } else {
      StaysQuarantined(p, ops[0], n, behind);
      var released := ops[0].DropLocal? && ops[0].n in p.localUsed;
      hide Do, Inv, HandedOut, QuarantinedAt;
      QuarantineLasts(Do(p, ops[0]), ops[1..], n, if released then behind + 1 else behind, op);
    }
  }

  /** After its release a number is not handed out again before `limit + 1` further releases. */
  lemma QuarantineDistance(limit: nat, before: seq<Op>, n: u32, between: seq<Op>, op: Op)
    requires limit <= MAX_LIMIT
    ensures var p := History(New(limit), before);
            var q := Do(p, DropLocal(n));
            n in p.localUsed && HandedOut(History(q, between), op) == Some(n) ==> Releases(q, between) >= limit + 1
  {
    var p := History(New(limit), before);
    var q := Do(p, DropLocal(n));
    if n in p.localUsed && Releases(q, between) <= limit {
      JustReleased(p, n);
      hide Do, History, HandedOut, QuarantinedAt, Inv;
      QuarantineLasts(q, between, n, 0, op);
    }
  }

  lemma JustReleased(p: Ports, n: u32)
    requires Inv(p) && n in p.localUsed
    ensures QuarantinedAt(Do(p, DropLocal(n)), n, 0)
  {
    hide Inv;
  }

  // ---------------------------------------------------------------------------
  // The allocator itself
  // ---------------------------------------------------------------------------

  class PortAllocatorInner {
    var localUsed: set<u32>
    var localPreAllocated: set<u32>
    var remoteUsed: set<u32>
    var reserved: nat
    var quarantinedSet: set<u32>
    var quarantinedList: seq<u32>
    const limit: nat
    var next: u32

    function Value(): Ports
      reads this
    {
      Ports(localUsed, localPreAllocated, remoteUsed, reserved, quarantinedList, limit, next)
    }

    /** The set holds the numbers of the list. */
    ghost predicate Valid()
      reads this
    {
      Inv(Value()) && quarantinedSet == Elements(quarantinedList)
    }

    constructor (limit: nat)
      requires limit <= MAX_LIMIT
      ensures Valid() && Value() == New(limit)
    {
      this.limit := limit;
      localUsed, localPreAllocated, remoteUsed, reserved, quarantinedSet, quarantinedList, next := {}, {}, {},
        0, {}, [], 0;
    }

    predicate IsAvailable()
      reads this
    {
      |localUsed| + |remoteUsed| + reserved < limit
    }

    /** The loop ends because each turn comes closer to some free number. */
    method Advance() returns (n: u32)
      requires Valid()
      modifies this`next
      ensures Value() == old(Value()).(next := n)
      ensures |Blocked(old(Value()))| < U32_BOUND && n == NextFree(old(next), Blocked(old(Value())))
    {
      BlockedFew(Value());
      ghost var blocked := Blocked(Value());
      ghost var free := FreeOne(blocked);
      next := Wrap(next);
      while next in localUsed || next in localPreAllocated || next in quarantinedSet
        invariant Value() == old(Value()).(next := next)
        invariant Search(old(next), blocked, free) == if next in blocked then Search(next, blocked, free) else next
        decreases (free - next) % U32_BOUND
      {
        CloserTo(next, free);
        next := Wrap(next);
      }
      n := next;
    }

    method TryAllocateLocal() returns (r: Option<u32>)
      requires Valid()
      modifies this
      ensures Valid() && (Value(), r) == AllocateLocal(old(Value()))
    {
      AllocateLocalKeeps(Value());
      if !IsAvailable() {
        return None;
      }
      var n := Advance();
      localUsed := localUsed + {n};
      r := Some(n);
    }

    method TryPreAllocateLocal() returns (r: Option<u32>)
      requires Valid()
      modifies this
      ensures Valid() && (Value(), r) == PreAllocate(old(Value()))
    {
      PreAllocateKeeps(Value());
      if |localPreAllocated| >= PRE_ALLOCATED_LIMIT {
        return None;
      }
      var n := Advance();
      localPreAllocated := localPreAllocated + {n};
      r := Some(n);
    }

    /** The number belongs to a pre-allocation handle; removing it therefore succeeds. */
    method TryAllocatePreAllocated(n: u32) returns (r: Option<u32>)
      requires Valid() && n in localPreAllocated
      modifies this
      ensures Valid() && (Value(), r) == AllocatePreAllocated(old(Value()), n)
    {
      AllocatePreAllocatedKeeps(Value(), n);
      InQuarantine(n);
      if IsAvailable() && n !in localUsed && n !in quarantinedSet {
        localUsed := localUsed + {n};
        assert n in localPreAllocated;
        localPreAllocated := localPreAllocated - {n};
        r := Some(n);
      } else {
        r := None;
      }
    }

    lemma InQuarantine(n: u32)
      ensures n in Elements(quarantinedList) <==> n in quarantinedList
    {
    }

    method TryAllocateRemote(n: u32) returns (r: RemoteResult)
      requires Valid()
      modifies this`remoteUsed
      ensures Valid() && (Value(), r) == AllocateRemote(old(Value()), n)
    {
      AllocateRemoteKeeps(Value(), n);
      if !IsAvailable() {
        return Exhausted;
      }
      if n in remoteUsed {
        return AlreadyAllocated;
      }
      remoteUsed := remoteUsed + {n};
      r := Allocated(n);
    }

    method TryReserve() returns (ok: bool)
      requires Valid()
      modifies this`reserved
      ensures Valid() && (Value(), ok) == Reserve(old(Value()))
    {
      ok := IsAvailable();
      if ok {
        reserved := reserved + 1;
      }
    }

    /** Never out of ports: the reservation itself has made room. */
    method IntoLocal() returns (n: u32)
      requires Valid() && reserved > 0
      modifies this
      ensures Valid() && Inv(Unreserve(old(Value()))) && (Value(), Some(n)) == AllocateLocal(Unreserve(old(Value())))
    {
      ReservationHonoured(Value(), 0);
      reserved := reserved - 1;
      hide Inv, AllocateLocal, Available;
      var r := TryAllocateLocal();
      n := r.value;
    }

    method IntoRemote(n: u32) returns (ok: bool)
      requires Valid() && reserved > 0
      modifies this
      ensures Valid() && Value() == AllocateRemote(Unreserve(old(Value())), n).0
      ensures ok <==> n !in old(remoteUsed)
    {
      ReservationHonoured(Value(), n);
      reserved := reserved - 1;
      var r := TryAllocateRemote(n);
      ok := r.Allocated?;
    }

    method DropReserved()
      requires Valid() && reserved > 0
      modifies this`reserved
      ensures Valid() && Value() == Unreserve(old(Value()))
    {
      reserved := reserved - 1;
    }

    method DropLocal(n: u32)
      requires Valid() && n in localUsed
      modifies this
      ensures Valid() && Value() == ReleaseLocal(old(Value()), n)
    {
      hide NoDuplicates, Elements, InUse, Trim, Inv;
      ReleaseLocalKeeps(Value(), n);
      ElementsAppend(quarantinedList, n);
      NotQuarantined(n);
      localUsed := localUsed - {n};
      quarantinedSet := quarantinedSet + {n};
      quarantinedList := quarantinedList + [n];
      TrimQuarantine();
    }

    lemma NotQuarantined(n: u32)
      requires Inv(Value()) && n in localUsed
      ensures NoDuplicates(quarantinedList + [n])
    {
      ElementsAppend(quarantinedList, n);
    }

    method TrimQuarantine()
      requires NoDuplicates(quarantinedList) && quarantinedSet == Elements(quarantinedList)
      modifies this`quarantinedList, this`quarantinedSet
      ensures quarantinedList == Trim(old(quarantinedList), limit + 1) && quarantinedSet == Elements(quarantinedList)
    {
      hide NoDuplicates, Elements;
      while |quarantinedList| > limit + 1
        invariant quarantinedSet == Elements(quarantinedList) && NoDuplicates(quarantinedList)
        invariant Trim(quarantinedList, limit + 1) == Trim(old(quarantinedList), limit + 1)
        decreases |quarantinedList|
      {
        var port := quarantinedList[0];
        ElementsTail(quarantinedList);
        quarantinedList := quarantinedList[1..];
        quarantinedSet := quarantinedSet - {port};
      }
    }

    method DropPreAllocated(n: u32)
      requires Valid()
      modifies this`localPreAllocated
      ensures Valid() && Value() == old(Value()).(preAllocated := old(localPreAllocated) - {n})
    {
      DifferenceSize(localPreAllocated, {n});
      localPreAllocated := localPreAllocated - {n};
    }

    method DropRemote(n: u32)
      requires Valid()
      modifies this`remoteUsed
      ensures Valid() && Value() == old(Value()).(remoteUsed := old(remoteUsed) - {n})
    {
      DifferenceSize(remoteUsed, {n});
      remoteUsed := remoteUsed - {n};
    }
  }
}
