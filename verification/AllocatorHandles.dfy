/**
 The allocator seen by those who hold its ports. What they hold, have released and were last
 given is recorded from the results of the operations alone; the allocator's own sets must
 agree with it in every history.
 */
module AllocatorHandles {
  import opened Types
  import opened Allocator

  /** Handles that live, local numbers released so far, and the last local number handed out. */
  datatype Holders = Holders(
    locals: multiset<u32>,
    preAllocated: multiset<u32>,
    remotes: multiset<u32>,
    reservations: nat,
    released: seq<u32>,
    last: u32)

  datatype World = World(p: Ports, h: Holders)

  function Nobody(): Holders {
    Holders(multiset{}, multiset{}, multiset{}, 0, [], 0)
  }

  function Held(h: Holders): nat {
    |h.locals| + |h.remotes| + h.reservations
  }

  function TookLocal(h: Holders, r: Option<u32>): Holders {
    match r
    case None => h
    case Some(n) => h.(locals := h.locals + multiset{n}, last := n)
  }

  function TookRemote(h: Holders, r: RemoteResult): Holders {
    if r.Allocated? then h.(remotes := h.remotes + multiset{r.n}) else h
  }

  /** An operation on a handle needs the handle. */
  ghost function Step(w: World, op: Op): World
    requires Inv(w.p)
    ensures Inv(Step(w, op).p) && Step(w, op).p.limit == w.p.limit
  {
    var h := w.h;
    match op
    case TryAllocate => World(Do(w.p, op), TookLocal(h, AllocateLocal(w.p).1))
    case TryPreAllocate =>
      (match PreAllocate(w.p).1
       case None => World(Do(w.p, op), h)
       case Some(n) => World(Do(w.p, op), h.(preAllocated := h.preAllocated + multiset{n}, last := n)))
    case TryPreAllocated(n) =>
      if n !in h.preAllocated then w
      else if AllocatePreAllocated(w.p, n).1.None? then World(Do(w.p, op), h)
      else World(Do(w.p, op), h.(preAllocated := h.preAllocated - multiset{n}, locals := h.locals + multiset{n}))
    case DropPreAllocated(n) =>
      if n !in h.preAllocated then w
      else World(Do(w.p, op), h.(preAllocated := h.preAllocated - multiset{n}))
    case TryRemote(n) => World(Do(w.p, op), TookRemote(h, AllocateRemote(w.p, n).1))
    case TryReserve =>
      World(Do(w.p, op), if Reserve(w.p).1 then h.(reservations := h.reservations + 1) else h)
    case IntoLocal =>
      if h.reservations == 0 || w.p.reserved == 0 then w
      else
        ReservationHonoured(w.p, 0);
        World(Do(w.p, op), TookLocal(h.(reservations := h.reservations - 1), AllocateLocal(Unreserve(w.p)).1))
    case IntoRemote(n) =>
      if h.reservations == 0 || w.p.reserved == 0 then w
      else World(Do(w.p, op), TookRemote(h.(reservations := h.reservations - 1), AllocateRemote(Unreserve(w.p), n).1))
    case DropReserved =>
      if h.reservations == 0 || w.p.reserved == 0 then w
      else World(Do(w.p, op), h.(reservations := h.reservations - 1))
    case DropLocal(n) =>
      if n !in h.locals then w
      else World(Do(w.p, op), h.(locals := h.locals - multiset{n}, released := h.released + [n]))
    case DropRemote(n) =>
      if n !in h.remotes then w
      else World(Do(w.p, op), h.(remotes := h.remotes - multiset{n}))
  }

  ghost function Run(limit: nat, ops: seq<Op>): (w: World)
    requires limit <= MAX_LIMIT
    ensures Inv(w.p) && w.p.limit == limit
  {
    if ops == [] then World(New(limit), Nobody()) else Step(Run(limit, ops[..|ops| - 1]), ops[|ops| - 1])
  }

  /** The numbers released last. */
  function Recent(released: seq<u32>, limit: nat): seq<u32> {
    if |released| > limit + 1 then released[|released| - (limit + 1)..] else released
  }

  ghost predicate Agrees(w: World) {
    && multiset(w.p.localUsed) == w.h.locals
    && multiset(w.p.preAllocated) == w.h.preAllocated
    && multiset(w.p.remoteUsed) == w.h.remotes
    && w.p.reserved == w.h.reservations
    && w.p.quarantine == Recent(w.h.released, w.p.limit)
    && w.p.next == w.h.last
  }

  lemma Added(s: set<u32>, n: u32)
    ensures n !in s ==> multiset(s + {n}) == multiset(s) + multiset{n}
    ensures n in s ==> multiset(s - {n}) == multiset(s) - multiset{n}
  {
  }

  lemma RecentAppend(released: seq<u32>, n: u32, limit: nat)
    ensures Trim(Recent(released, limit) + [n], limit + 1) == Recent(released + [n], limit)
  {
  }

  lemma LocalAgrees(w: World)
    requires Inv(w.p) && Agrees(w)
    ensures Agrees(World(AllocateLocal(w.p).0, TookLocal(w.h, AllocateLocal(w.p).1)))
  {
    AllocateLocalKeeps(w.p);
    if AllocateLocal(w.p).1.Some? {
      Added(w.p.localUsed, AllocateLocal(w.p).1.value);
    }
    hide NextFree, Inv, Recent;
  }

  lemma PreAllocateAgrees(w: World)
    requires Inv(w.p) && Agrees(w)
    ensures Agrees(Step(w, TryPreAllocate))
  {
    PreAllocateKeeps(w.p);
    if PreAllocate(w.p).1.Some? {
      Added(w.p.preAllocated, PreAllocate(w.p).1.value);
    }
    hide NextFree, Inv, Recent;
  }

  lemma PreAllocatedAgrees(w: World, n: u32)
    requires Inv(w.p) && Agrees(w)
    ensures Agrees(Step(w, TryPreAllocated(n)))
  {
    hide Recent;
    if n in w.h.preAllocated {
      assert n in w.p.preAllocated && n !in w.p.localUsed;
      Added(w.p.localUsed, n);
      Added(w.p.preAllocated, n);
    }
    hide Inv;
  }

  lemma DropPreAllocatedAgrees(w: World, n: u32)
    requires Inv(w.p) && Agrees(w)
    ensures Agrees(Step(w, DropPreAllocated(n)))
  {
    hide Recent, Inv;
    if n in w.h.preAllocated {
      assert n in w.p.preAllocated;
      Added(w.p.preAllocated, n);
    }
  }

  lemma RemoteAgrees(w: World, n: u32)
    requires Inv(w.p) && Agrees(w)
    ensures Agrees(World(AllocateRemote(w.p, n).0, TookRemote(w.h, AllocateRemote(w.p, n).1)))
    ensures Agrees(Step(w, DropRemote(n)))
  {
    Added(w.p.remoteUsed, n);
    hide Recent, Inv;
  }

  lemma DropLocalAgrees(w: World, n: u32)
    requires Inv(w.p) && Agrees(w)
    ensures Agrees(Step(w, DropLocal(n)))
  {
    Added(w.p.localUsed, n);
    RecentAppend(w.h.released, n, w.p.limit);
    hide Recent, Inv, Trim;
  }

  lemma ReservationAgrees(w: World, op: Op)
    requires Inv(w.p) && Agrees(w) && (op.TryReserve? || op.DropReserved?)
    ensures Agrees(Step(w, op))
  {
    hide Recent, Inv;
  }

  /** The reservation given up before it is used. */
  ghost function Given(w: World): World
    requires w.p.reserved > 0 && w.h.reservations > 0
  {
    World(Unreserve(w.p), w.h.(reservations := w.h.reservations - 1))
  }

  lemma GivenAgrees(w: World)
    requires Inv(w.p) && Agrees(w) && w.p.reserved > 0
    ensures w.h.reservations > 0 && Inv(Given(w).p) && Agrees(Given(w))
  {
    ReservationHonoured(w.p, 0);
    hide Inv, Recent, AllocateLocal, AllocateRemote;
  }

  lemma StepInto(w: World, n: u32)
    requires Inv(w.p) && w.p.reserved == w.h.reservations && (w.p.reserved > 0 ==> Inv(Unreserve(w.p)))
    ensures if w.p.reserved == 0 then Step(w, IntoLocal) == w && Step(w, IntoRemote(n)) == w
            else var g := Given(w);
                 && Step(w, IntoLocal) == World(AllocateLocal(g.p).0, TookLocal(g.h, AllocateLocal(g.p).1))
                 && Step(w, IntoRemote(n)) == World(AllocateRemote(g.p, n).0, TookRemote(g.h, AllocateRemote(g.p, n).1))
  {
    hide Inv, AllocateLocal, AllocateRemote, TookLocal, TookRemote;
  }

  lemma IntoAgrees(w: World, n: u32)
    requires Inv(w.p) && Agrees(w)
    ensures Agrees(Step(w, IntoLocal)) && Agrees(Step(w, IntoRemote(n)))
  {
    assert w.p.reserved == w.h.reservations;
    hide *;
    if w.p.reserved > 0 {
      GivenAgrees(w);
      LocalAgrees(Given(w));
      RemoteAgrees(Given(w), n);
    }
    StepInto(w, n);
  }

  lemma TryAgrees(w: World, op: Op)
    requires Inv(w.p) && Agrees(w) && (op.TryAllocate? || op.TryRemote?)
    ensures Agrees(Step(w, op))
  {
    if op.TryAllocate? {
      LocalAgrees(w);
    } else {
      RemoteAgrees(w, op.n);
    }
    hide Inv, Agrees;
  }

  lemma StepAgrees(w: World, op: Op)
    requires Inv(w.p) && Agrees(w)
    ensures Agrees(Step(w, op))
  {
    hide Inv, Agrees, Step;
    match op
    case TryAllocate => TryAgrees(w, op);
    case TryPreAllocate => PreAllocateAgrees(w);
    case TryPreAllocated(n) => PreAllocatedAgrees(w, n);
    case DropPreAllocated(n) => DropPreAllocatedAgrees(w, n);
    case TryRemote(n) => TryAgrees(w, op);
    case TryReserve => ReservationAgrees(w, op);
    case IntoLocal => IntoAgrees(w, 0);
    case IntoRemote(n) => IntoAgrees(w, n);
    case DropReserved => ReservationAgrees(w, op);
    case DropLocal(n) => DropLocalAgrees(w, n);
    case DropRemote(n) => RemoteAgrees(w, n);
  }

  /**
   In every history the allocator's sets are exactly the numbers with a live handle, each held
   once, its count the live reservations, its quarantine the last `limit + 1` numbers released
   and its cursor the last local number handed out.
   */
  lemma {:induction false} AgreesAlways(limit: nat, ops: seq<Op>)
    requires limit <= MAX_LIMIT
    ensures Agrees(Run(limit, ops))
  {
    hide Agrees, Step;
    if ops == [] {
      StartAgrees(limit);
    } else {
      AgreesAlways(limit, ops[..|ops| - 1]);
      StepAgrees(Run(limit, ops[..|ops| - 1]), ops[|ops| - 1]);
    }
  }

  lemma StartAgrees(limit: nat)
    ensures Agrees(World(New(limit), Nobody()))
  {
  }

  lemma SizesHeld(w: World)
    requires Agrees(w)
    ensures Held(w.h) == InUse(w.p)
  {
  }

  /** Live handles and reservations never exceed the limit, and none is given out when they reach it. */
  lemma WithinLimit(limit: nat, ops: seq<Op>, n: u32)
    requires limit <= MAX_LIMIT
    ensures var w := Run(limit, ops);
            && Held(w.h) <= limit
            && (AllocateLocal(w.p).1.Some? <==> Held(w.h) < limit)
            && (PreAllocate(w.p).1.Some? <==> |w.h.preAllocated| < PRE_ALLOCATED_LIMIT)
            && (Reserve(w.p).1 <==> Held(w.h) < limit)
            && AllocateRemote(w.p, n).1
               == (if Held(w.h) >= limit then Exhausted
                   else if n in w.h.remotes then AlreadyAllocated else Allocated(n))
            && (n in w.h.preAllocated ==> (AllocatePreAllocated(w.p, n).1 == Some(n) <==> Held(w.h) < limit))
  {
    AgreesAlways(limit, ops);
    var w := Run(limit, ops);
    SizesHeld(w);
    AllocateLocalKeeps(w.p);
    assert |w.p.preAllocated| == |w.h.preAllocated|;
    if n in w.h.preAllocated {
      assert n in w.p.preAllocated;
      AllocatePreAllocatedKeeps(w.p, n);
    }
    hide Run, AllocateLocal, Recent;
  }

  /** Nobody holds the number, and it is not among those released last. */
  predicate Unused(h: Holders, limit: nat, n: u32) {
    n !in h.locals && n !in h.preAllocated && n !in Recent(h.released, limit)
  }

  /**
   In every history a local number handed out is held by nobody and not recently released, and
   of all such numbers it is the nearest after the last one handed out.
   */
  lemma HandsOutNearest(limit: nat, ops: seq<Op>, op: Op, n: u32, other: u32)
    requires limit <= MAX_LIMIT && HandedOut(Run(limit, ops).p, op) == Some(n)
    ensures var h := Run(limit, ops).h;
            && Unused(h, limit, n)
            && (Unused(h, limit, other) ==> Distance(h.last, n) <= Distance(h.last, other))
  {
    AgreesAlways(limit, ops);
    var w := Run(limit, ops);
    var p := if op.IntoLocal? then Unreserve(w.p) else w.p;
    if op.IntoLocal? {
      ReservationHonoured(w.p, 0);
    }
    BlockedFew(p);
    assert n == NextFree(p.next, Blocked(p));
    BlockedIs(w, n);
    BlockedIs(w, other);
    if Unused(w.h, limit, other) {
      SearchNearest(p.next, Blocked(p), FreeOne(Blocked(p)), other);
    }
    hide Run, Inv, Search;
  }

  lemma BlockedIs(w: World, n: u32)
    requires Agrees(w)
    ensures n in Blocked(w.p) <==> !Unused(w.h, w.p.limit, n)
  {
    assert n in Elements(w.p.quarantine) <==> n in w.p.quarantine;
    assert n in w.p.localUsed <==> n in multiset(w.p.localUsed);
    assert n in w.p.preAllocated <==> n in multiset(w.p.preAllocated);
  }

  /** A reservation always becomes a local port, and a remote one exactly if nobody holds that number. */
  lemma ReservationsHonoured(limit: nat, ops: seq<Op>, n: u32)
    requires limit <= MAX_LIMIT && Run(limit, ops).h.reservations > 0
    ensures var w := Run(limit, ops);
            && w.p.reserved > 0
            && HandedOut(w.p, IntoLocal).Some?
            && (AllocateRemote(Unreserve(w.p), n).1 == Allocated(n) <==> n !in w.h.remotes)
  {
    AgreesAlways(limit, ops);
    var w := Run(limit, ops);
    hide Run;
    IntoHandsOut(w.p, n);
    assert n in w.p.remoteUsed <==> n in multiset(w.p.remoteUsed);
    hide Inv, HandedOut, AllocateRemote, Recent;
  }

  lemma IntoHandsOut(p: Ports, n: u32)
    requires Inv(p) && p.reserved > 0
    ensures HandedOut(p, IntoLocal).Some?
    ensures AllocateRemote(Unreserve(p), n).1 == Allocated(n) <==> n !in p.remoteUsed
  {
    ReservationHonoured(p, n);
    ReservationHonoured(p, 0);
    hide Inv, AllocateLocal, AllocateRemote;
  }
}
