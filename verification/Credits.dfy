/** Sums over sequences. */
module Sums {

  function Sum<T>(s: seq<T>, f: T -> nat): nat {
    if s == [] then 0 else f(s[0]) + Sum(s[1..], f)
  }

  lemma {:induction false} SumConcat<T>(a: seq<T>, b: seq<T>, f: T -> nat)
    ensures Sum(a + b, f) == Sum(a, f) + Sum(b, f)
  {
    if a == [] {
      assert a + b == b;
    } else {
      assert (a + b)[1..] == a[1..] + b;
      SumConcat(a[1..], b, f);
    }
  }

  lemma SumAppend<T>(a: seq<T>, x: T, f: T -> nat)
    ensures Sum(a + [x], f) == Sum(a, f) + f(x)
  {
    SumConcat(a, [x], f);
    assert Sum([x], f) == f(x) + Sum([x][1..], f);
  }

  lemma SumSplit<T>(s: seq<T>, i: nat, f: T -> nat)
    requires i < |s|
    ensures Sum(s, f) == Sum(s[..i], f) + f(s[i]) + Sum(s[i + 1..], f)
  {
    assert s == s[..i] + ([s[i]] + s[i + 1..]);
    SumConcat(s[..i], [s[i]] + s[i + 1..], f);
    assert ([s[i]] + s[i + 1..])[1..] == s[i + 1..];
  }

  lemma SumUpdate<T>(s: seq<T>, i: nat, x: T, f: T -> nat)
    requires i < |s|
    ensures Sum(s[i := x], f) + f(s[i]) == Sum(s, f) + f(x)
    ensures f(s[i]) <= Sum(s, f)
  {
    SumSplit(s, i, f);
    SumSplit(s[i := x], i, f);
    assert s[i := x][..i] == s[..i] && s[i := x][i + 1..] == s[i + 1..];
  }

  function Remove<T>(s: seq<T>, i: nat): seq<T>
    requires i < |s|
  {
    s[..i] + s[i + 1..]
  }

  lemma SumRemove<T>(s: seq<T>, i: nat, f: T -> nat)
    requires i < |s|
    ensures Sum(Remove(s, i), f) + f(s[i]) == Sum(s, f)
  {
    SumSplit(s, i, f);
    SumConcat(s[..i], s[i + 1..], f);
  }

  lemma {:induction false} SumZero<T>(s: seq<T>, f: T -> nat)
    requires forall i | 0 <= i < |s| :: f(s[i]) == 0
    ensures Sum(s, f) == 0
  {
    if s != [] {
      SumZero(s[1..], f);
    }
  }
}

/** Credit counters of both ends of a channel and of the pool shared by all channels. */
module Credits {
  import opened Types
  import opened Sums

  datatype Pool = PortPool | GlobalPool

  /** Credits taken from one pool for a send in progress. */
  datatype Assigned = Assigned(pool: Pool, credits: nat)

  /** How a data message says which pools paid for it. */
  datatype DataCredits = PortOnly | GlobalOnly | GlobalAndPort(global: nat)

  /** A number of credits of each kind. */
  datatype Split = Split(port: nat, global: nat)

  function PortPart(): Assigned -> nat {
    (a: Assigned) => if a.pool == PortPool then a.credits else 0
  }

  function GlobalPart(): Assigned -> nat {
    (a: Assigned) => if a.pool == GlobalPool then a.credits else 0
  }

  function Available(es: seq<Assigned>): nat {
    Sum(es, PortPart()) + Sum(es, GlobalPart())
  }

  /** Credits are taken from the oldest assignment first. */
  function Drain(es: seq<Assigned>, n: nat): (r: (seq<Assigned>, Split))
    ensures n <= Available(es) ==> r.1.port + r.1.global == n
    ensures n <= Available(es) ==> Sum(r.0, PortPart()) + r.1.port == Sum(es, PortPart())
    ensures n <= Available(es) ==> Sum(r.0, GlobalPart()) + r.1.global == Sum(es, GlobalPart())
    decreases |es|
  {
    if n == 0 || es == [] then (es, Split(0, 0))
    else if es[0].credits <= n then
      var (rest, s) := Drain(es[1..], n - es[0].credits);
      (rest, Pay(s, es[0].pool, es[0].credits))
    else
      ([es[0].(credits := es[0].credits - n)] + es[1..], Pay(Split(0, 0), es[0].pool, n))
  }

  function Pay(s: Split, pool: Pool, n: nat): Split {
    match pool
    case PortPool => s.(port := s.port + n)
    case GlobalPool => s.(global := s.global + n)
  }

  function Label(s: Split): DataCredits {
    if s.global == 0 then PortOnly else if s.port == 0 then GlobalOnly else GlobalAndPort(s.global)
  }

  /** What the receiver charges for a data message of a given length. */
  function Charge(size: nat, c: DataCredits): Split {
    var total := Max(size, 1);
    match c
    case PortOnly => Split(total, 0)
    case GlobalOnly => Split(0, total)
    case GlobalAndPort(g) => Split(if total <= g then 0 else total - g, g)
  }

  /** The receiver charges exactly what the sender paid. */
  lemma ChargeMatchesPayment(es: seq<Assigned>, size: nat)
    requires Max(size, 1) <= Available(es)
    ensures Charge(size, Label(Drain(es, Max(size, 1)).1)) == Drain(es, Max(size, 1)).1
  {
  }

  /** One turn of draining: the front assignment pays as much as it can. */
  lemma DrainFront(es: seq<Assigned>, n: nat)
    requires 0 < n <= Available(es)
    ensures es != []
    ensures var take := if es[0].credits <= n then es[0].credits else n;
            var rest := if take == es[0].credits then es[1..] else [es[0].(credits := es[0].credits - take)] + es[1..];
            && n - take <= Available(rest)
            && Drain(es, n) == (Drain(rest, n - take).0, Pay(Drain(rest, n - take).1, es[0].pool, take))
  {
    if es[0].credits > n {
      assert ([es[0].(credits := es[0].credits - n)] + es[1..])[1..] == es[1..];
    }
  }

  lemma DrainNone(es: seq<Assigned>)
    ensures Drain(es, 0) == (es, Split(0, 0))
  {
  }

  class MixedAssignedCredits {
    var entries: seq<Assigned>

    constructor ()
      ensures entries == []
    {
      entries := [];
    }

    method Add(a: Assigned)
      requires a.credits > 0
      modifies this
      ensures entries == old(entries) + [a]
    {
      entries := entries + [a];
    }

    /** Empty assignments are dropped as soon as they are used up. */
    method Take(n: nat) returns (c: DataCredits)
      requires n <= Available(entries)
      requires forall i | 0 <= i < |entries| :: entries[i].credits > 0
      modifies this
      ensures entries == Drain(old(entries), n).0
      ensures c == Label(Drain(old(entries), n).1)
      ensures forall i | 0 <= i < |entries| :: entries[i].credits > 0
    {
      hide Drain, Sum, Available;
      var global: nat, port: nat, credits: nat := 0, 0, n;
      ghost var goal := Drain(entries, n);
      while credits > 0
        invariant credits <= Available(entries)
        invariant forall i | 0 <= i < |entries| :: entries[i].credits > 0
        invariant Drain(entries, credits).0 == goal.0
        invariant Drain(entries, credits).1.port + port == goal.1.port
        invariant Drain(entries, credits).1.global + global == goal.1.global
        decreases credits
      {
        DrainFront(entries, credits);
        var front := entries[0];
        var take: nat := if front.credits <= credits then front.credits else credits;
        credits := credits - take;
        match front.pool {
          case GlobalPool => global := global + take;
          case PortPool => port := port + take;
        }
        if take == front.credits {
          entries := entries[1..];
        } else {
          entries := [front.(credits := front.credits - take)] + entries[1..];
        }
      }
      DrainNone(entries);
      c := if global == 0 then PortOnly else if port == 0 then GlobalOnly else GlobalAndPort(global);
    }
  }

  // ---------------------------------------------------------------------------
  // Taking credits for a send
  // ---------------------------------------------------------------------------

  /** Up to `req` credits, but nothing when fewer than `minReq` are there. */
  function Grant(have: nat, req: nat, minReq: nat): nat {
    if have < minReq then 0 else if have <= req then have else req
  }

  datatype StoreState = Open | Closed | ClosedGracefully

  class SendableCreditStore {
    const pool: Pool
    var credits: nat
    var state: StoreState
    var useGlobal: bool

    constructor (pool: Pool, initial: nat)
      ensures this.pool == pool && credits == initial && state == Open && useGlobal
    {
      this.pool := pool;
      credits, state, useGlobal := initial, Open, true;
    }

    /** Only port stores can refuse; a graceful close may be overridden. */
    predicate Sendable(overrideGraceful: bool)
      reads this
    {
      pool != PortPool || state == Open || (state == ClosedGracefully && overrideGraceful)
    }

    method TryTake(req: nat, minReq: nat) returns (taken: nat)
      modifies this`credits
      ensures taken == Grant(old(credits), req, minReq)
      ensures taken == if old(credits) < minReq then 0 else Min(old(credits), req)
      ensures credits + taken == old(credits)
    {
      taken := 0;
      if credits >= minReq {
        taken := if credits <= req then credits else req;
        credits := credits - taken;
      }
    }

    /** Dropping an assignment gives its rest back. */
    method GiveBack(n: nat)
      modifies this`credits
      ensures credits == old(credits) + n
    {
      credits := credits + n;
    }

    /** Credits from the peer; a sum beyond 32 bits is a protocol error. */
    method Provide(n: u32) returns (ok: bool)
      requires credits < U32_BOUND
      modifies this`credits
      ensures ok <==> old(credits) + n < U32_BOUND
      ensures ok ==> credits == old(credits) + n
    {
      ok := credits + n < U32_BOUND;
      credits := (credits + n) % U32_BOUND;
    }
  }

  /** The split of what a request obtains from the port and the shared store. */
  function MixedGrant(port: nat, global: nat, globalAllowed: bool, req: nat, minReq: nat): Split {
    var p := Grant(port, req, minReq);
    if p >= req || !globalAllowed then Split(p, 0)
    else Split(p, Grant(global, req - p, if minReq <= p then 0 else minReq - p))
  }

  /**
   Two stores are tried one after the other, each for the whole minimum, so a request is
   served exactly when one of them alone can serve it. The port's store gives first; the shared
   one fills up what is missing to the whole request.
   */
  lemma MixedGrantServed(port: nat, global: nat, globalAllowed: bool, req: nat, minReq: nat)
    requires 0 < req && minReq <= req
    ensures var g := MixedGrant(port, global, globalAllowed, req, minReq);
            && (g.port + g.global >= minReq <==> port >= minReq || (globalAllowed && global >= minReq))
            && g.port == (if port >= minReq then Min(port, req) else 0)
            && g.port + g.global
               == (if port >= minReq then Min(req, port + if globalAllowed then global else 0)
                   else if globalAllowed && global >= minReq then Min(req, global) else 0)
  {
  }

  /** Enough credits in total may still not be enough: five and five cannot serve ten. */
  lemma TotalIsNotEnough()
    ensures var g := MixedGrant(5, 5, true, 10, 10); g.port + g.global == 0
  {
  }

  /** The error is of the port's closing, or of a multiplexer that has ended. */
  datatype Requested = Obtained(entries: seq<Assigned>) | TooFew | ChannelClosed(gracefully: bool) | Ended

  /** A store is gone (null) once its multiplexer has ended; a peer may have no shared pool at all (hasGlobal). */
  class MixedCreditUser {
    var port: SendableCreditStore?
    var overrideGraceful: bool
    var hasGlobal: bool
    var global: SendableCreditStore?
    var globalEnabled: bool

    constructor (port: SendableCreditStore?, hasGlobal: bool, global: SendableCreditStore?)
      ensures this.port == port && this.hasGlobal == hasGlobal && this.global == global
      ensures globalEnabled && !overrideGraceful
    {
      this.port, this.hasGlobal, this.global := port, hasGlobal, global;
      globalEnabled, overrideGraceful := true, false;
    }

    /** The port counts for the port pool, the shared store for the shared one. */
    predicate Apart()
      reads this, port
    {
      port != null ==> port.pool == PortPool && global != port
    }

    /** Whether the shared store is tried when the port does not give all. */
    predicate TriesGlobal()
      reads this, port
    {
      port != null && globalEnabled && port.useGlobal && hasGlobal
    }

    function GlobalCredits(): nat
      reads this, global
    {
      if global != null then global.credits else 0
    }

    /** What the two stores give, one after the other; None if the shared one is gone when it is tried. */
    method Acquire(req: nat, minReq: nat) returns (r: Option<seq<Assigned>>, got: Split)
      requires 0 < req && minReq <= req && Apart() && port != null
      modifies port`credits, global
      ensures global != null ==> global.state == old(global.state) && global.useGlobal == old(global.useGlobal)
      ensures port.credits == old(port.credits) - got.port && GlobalCredits() == old(GlobalCredits()) - got.global
      ensures r.None? <==> TriesGlobal() && global == null && Grant(old(port.credits), req, minReq) < req
      ensures got == MixedGrant(old(port.credits), old(GlobalCredits()), TriesGlobal() && global != null, req, minReq)
      ensures r.Some? ==> Sum(r.value, PortPart()) == got.port && Sum(r.value, GlobalPart()) == got.global
                          && forall i | 0 <= i < |r.value| :: r.value[i].credits > 0
    {
      var mixed := new MixedAssignedCredits();
      var want, need := req, minReq;
      var p := port.TryTake(want, need);
      if p > 0 {
        want := want - p;
        need := if need <= p then 0 else need - p;
        mixed.Add(Assigned(PortPool, p));
      }
      assert mixed.entries == if p > 0 then [Assigned(PortPool, p)] else [];
      var g := 0;
      if want > 0 && globalEnabled && port.useGlobal && hasGlobal {
        if global == null {
          return None, Split(p, 0);
        }
        g := global.TryTake(want, need);
        if g > 0 {
          mixed.Add(Assigned(GlobalPool, g));
        }
      }
      SumOfTwo(p, g);
      r, got := Some(mixed.entries), Split(p, g);
    }

    /** Takes credits from both stores; when the minimum is missed, or on an error, everything goes back. */
    method TryRequest(req: nat, minReq: nat) returns (r: Requested)
      requires 0 < req && minReq <= req && Apart()
      modifies port, global
      ensures port != null ==> port.state == old(port.state) && port.useGlobal == old(port.useGlobal)
      ensures global != null ==> global.state == old(global.state) && global.useGlobal == old(global.useGlobal)
      ensures r == Ended <==>
              || port == null
              || (port.Sendable(overrideGraceful) && TriesGlobal() && global == null
                   && Grant(old(port.credits), req, minReq) < req)
      ensures r.ChannelClosed? <==> port != null && !port.Sendable(overrideGraceful)
      ensures r.ChannelClosed? ==> (r.gracefully <==> port.state == ClosedGracefully)
      ensures r.Obtained? || r.TooFew? ==>
                var g := MixedGrant(old(port.credits), old(GlobalCredits()), TriesGlobal(), req, minReq);
                && (r.Obtained? <==> g.port + g.global >= minReq)
                && (r.Obtained? ==>
                      && Sum(r.entries, PortPart()) == g.port && Sum(r.entries, GlobalPart()) == g.global
                      && port.credits == old(port.credits) - g.port
                           && GlobalCredits() == old(GlobalCredits()) - g.global
                      && forall i | 0 <= i < |r.entries| :: r.entries[i].credits > 0)
      ensures !r.Obtained? ==>
                && (port != null ==> port.credits == old(port.credits))
                && GlobalCredits() == old(GlobalCredits())
    {
      if port == null {
        return Ended;
      }
      if !port.Sendable(overrideGraceful) {
        return ChannelClosed(port.state == ClosedGracefully);
      }
      var mixed, got := Acquire(req, minReq);
      if mixed.Some? && got.port + got.global >= minReq {
        return Obtained(mixed.value);
      }
      port.GiveBack(got.port);
      if got.global > 0 {
        global.GiveBack(got.global);
      }
      r := if mixed.None? then Ended else TooFew;
    }
  }

  lemma SumOfTwo(p: nat, g: nat)
    ensures var es := (if p > 0 then [Assigned(PortPool, p)] else [])
            + (if g > 0 then [Assigned(GlobalPool, g)] else []);
            Sum(es, PortPart()) == p && Sum(es, GlobalPart()) == g
  {
    var a := if p > 0 then [Assigned(PortPool, p)] else [];
    var b := if g > 0 then [Assigned(GlobalPool, g)] else [];
    SumConcat(a, b, PortPart());
    SumConcat(a, b, GlobalPart());
    assert p > 0 ==> a[1..] == [];
    assert g > 0 ==> b[1..] == [];
  }

  // ---------------------------------------------------------------------------
  // Receiving side of one port
  // ---------------------------------------------------------------------------

  /** Whether the peer may use shared credits on the port, as this side has told it. */
  datatype Usage = Active | Inhibiting | Inhibited

  datatype Monitor = Monitor(
    portUsed: nat,
    limit: nat,
    throttle: nat,
    release: nat,
    globalUsed: nat,
    allowed: bool,
    usage: Usage,
    toReturn: nat)

  function NewMonitor(limit: nat, throttle: nat): Monitor {
    Monitor(0, limit, throttle, Max(throttle / 4 * 3, 1), 0, true, Active, 0)
  }

  function SatAdd(a: nat, b: nat): nat {
    Min(a + b, U32_BOUND - 1)
  }

  function InUse(m: Monitor): nat {
    SatAdd(m.portUsed, m.globalUsed)
  }

  /** Data has arrived; None is a protocol error of the peer. */
  function UseCredits(m: Monitor, s: Split): Option<Monitor> {
    var port, global := m.portUsed + s.port, m.globalUsed + s.global;
    if port >= U32_BOUND || port > m.limit || global >= U32_BOUND then None
    else
      Some(m.(portUsed := port, globalUsed := global,
              usage := if SatAdd(port, global) >= m.throttle && m.usage == Active then Inhibiting else m.usage))
  }

  function ReturnThreshold(limit: nat): nat {
    var t := Max(limit / 4, 1);
    if limit - t <= 4 then 1 else t
  }

  /** The requests to the peer that a step makes. */
  datatype Return = Return(monitor: Monitor, credits: Option<nat>, allow: Option<bool>)

  /** Data has been consumed; None when more is released than was in use. */
  function StartReturn(m: Monitor, s: Split): Option<Return> {
    if m.portUsed < s.port || m.globalUsed < s.global || m.toReturn + s.port >= U32_BOUND then None
    else
      var sum := m.toReturn + s.port;
      var due := sum >= ReturnThreshold(m.limit);
      var m' := m.(portUsed := m.portUsed - s.port, globalUsed := m.globalUsed - s.global,
        toReturn := if due then 0 else sum);
      var again := InUse(m') < m.release && m.allowed;
      Some(Return(if again then m'.(usage := Active) else m',
                  if due then Some(sum) else None,
                  if again && m.usage == Inhibited then Some(true) else None))
  }

  /** The application changes whether shared credits may be used. */
  function SetAllowed(m: Monitor, allowed: bool): Return {
    if m.allowed == allowed then Return(m, None, None)
    else if allowed then
      if InUse(m) < m.release
      then Return(m.(allowed := true, usage := Active), None, if m.usage == Inhibited then Some(true) else None)
      else Return(m.(allowed := true), None, None)
    else
      Return(m.(allowed := false, usage := Inhibited), None, if m.usage != Inhibited then Some(false) else None)
  }

  /** The multiplexer sends a pending request to stop using shared credits. */
  function Inhibit(m: Monitor): Return {
    if m.usage == Inhibiting then Return(m.(usage := Inhibited), None, Some(false)) else Return(m, None, None)
  }

  class PortCreditMonitor {
    var portUsed: nat
    const limit: nat
    const throttle: nat
    const release: nat
    var globalUsed: nat
    var allowed: bool
    var usage: Usage
    var toReturn: nat

    function Value(): Monitor
      reads this
    {
      Monitor(portUsed, limit, throttle, release, globalUsed, allowed, usage, toReturn)
    }

    constructor (limit: u32, throttle: u32)
      ensures Value() == NewMonitor(limit, throttle)
    {
      this.limit, this.throttle := limit, throttle;
      this.release := Max(throttle / 4 * 3, 1);
      portUsed, globalUsed, allowed, usage, toReturn := 0, 0, true, Active, 0;
    }

    method Use(s: Split) returns (ok: bool)
      modifies this
      ensures ok <==> UseCredits(old(Value()), s).Some?
      ensures ok ==> UseCredits(old(Value()), s) == Some(Value())
    {
      portUsed := portUsed + s.port;
      if portUsed >= U32_BOUND || portUsed > limit {
        return false;
      }
      globalUsed := globalUsed + s.global;
      if globalUsed >= U32_BOUND {
        return false;
      }
      var total := SatAdd(portUsed, globalUsed);
      if total >= throttle && usage == Active {
        usage := Inhibiting;
      }
      ok := true;
    }

    method Release(s: Split) returns (r: Option<(Option<nat>, Option<bool>)>)
      modifies this
      ensures r.None? <==> StartReturn(old(Value()), s).None?
      ensures r.Some? ==> StartReturn(old(Value()), s) == Some(Return(Value(), r.value.0, r.value.1))
    {
      if portUsed < s.port || globalUsed < s.global || toReturn + s.port >= U32_BOUND {
        return None;
      }
      var returnThreshold := Max(limit / 4, 1);
      if limit - returnThreshold <= 4 {
        returnThreshold := 1;
      }
      portUsed := portUsed - s.port;
      globalUsed := globalUsed - s.global;
      toReturn := toReturn + s.port;
      var credits: Option<nat>, allow: Option<bool> := None, None;
      if toReturn >= returnThreshold {
        credits := Some(toReturn);
        toReturn := 0;
      }
      if SatAdd(portUsed, globalUsed) < release && allowed {
        if usage == Inhibited {
          allow := Some(true);
        }
        usage := Active;
      }
      r := Some((credits, allow));
    }

    method SetGlobalAllowed(allow: bool) returns (evt: Option<bool>)
      modifies this
      ensures SetAllowed(old(Value()), allow) == Return(Value(), None, evt)
    {
      evt := None;
      if allowed == allow {
        return;
      }
      allowed := allow;
      if allow {
        if SatAdd(portUsed, globalUsed) < release {
          if usage == Inhibited {
            evt := Some(true);
          }
          usage := Active;
        }
      } else {
        if usage != Inhibited {
          evt := Some(false);
        }
        usage := Inhibited;
      }
    }

    method MarkInhibited() returns (evt: Option<bool>)
      modifies this
      ensures Inhibit(old(Value())) == Return(Value(), None, evt)
    {
      evt := None;
      if usage == Inhibiting {
        usage := Inhibited;
        evt := Some(false);
      }
    }
  }

  // ---------------------------------------------------------------------------
  // The receive buffer shared by all ports
  // ---------------------------------------------------------------------------

  datatype BufferSize = BufferSize(size: nat, threshold: nat, force: bool)

  datatype Global = Global(total: nat, used: nat, toReturn: nat, threshold: nat, seqNo: u8)

  datatype GlobalCredits = GlobalCredits(credits: nat, seqNo: u8)

  function UseGlobal(g: Global, n: nat): Option<Global> {
    if g.used + n < U32_BOUND && g.used + n <= g.total then Some(g.(used := g.used + n)) else None
  }

  /** Data that used shared credits is dropped; None is an underflow or overflow. */
  function DropGlobal(g: Global, n: nat): Option<Global> {
    if g.used < n || g.toReturn + n >= U32_BOUND then None
    else Some(g.(used := g.used - n, toReturn := g.toReturn + n))
  }

  /** Grow or shrink towards the target, shrinking only by credits at hand. */
  function Resize(g: Global, target: nat): Global {
    if target > g.total then g.(total := target, toReturn := g.toReturn + (target - g.total))
    else
      var removed := if g.total - target <= g.toReturn then g.total - target else g.toReturn;
      g.(total := g.total - removed, toReturn := g.toReturn - removed)
  }

  /** What is sent to the peer; the target's threshold must be between one and its size. */
  function ReturnToRemote(g: Global, target: BufferSize): Option<(Global, Option<GlobalCredits>)> {
    var r := Resize(g, target.size);
    var changed := r.total != g.total;
    var seqNo: u8 := if changed then (g.seqNo + 1) % 256 else g.seqNo;
    if !(0 < target.threshold <= target.size) then None
    else
      var now := changed || target.force || r.toReturn >= target.threshold;
      var returning := if now then r.toReturn else 0;
      Some((Global(r.total, r.used, if now then 0 else r.toReturn, target.threshold, seqNo),
            if changed || returning > 0 then Some(GlobalCredits(returning, seqNo)) else None))
  }

  class GlobalCreditMonitor {
    var total: nat
    var used: nat
    var toReturn: nat
    var threshold: nat
    var seqNo: u8

    function Value(): Global
      reads this
    {
      Global(total, used, toReturn, threshold, seqNo)
    }

    constructor (initial: BufferSize)
      ensures Value() == Global(initial.size, 0, 0, initial.threshold, 0)
    {
      total, used, toReturn, threshold, seqNo := initial.size, 0, 0, initial.threshold, 0;
    }

    method Use(n: nat) returns (ok: bool)
      modifies this
      ensures ok <==> UseGlobal(old(Value()), n).Some?
      ensures ok ==> UseGlobal(old(Value()), n) == Some(Value())
    {
      used := used + n;
      ok := used < U32_BOUND && used <= total;
    }

    method GiveBack(n: nat) returns (ok: bool)
      modifies this
      ensures ok <==> DropGlobal(old(Value()), n).Some?
      ensures ok ==> DropGlobal(old(Value()), n) == Some(Value())
    {
      if used < n {
        return false;
      }
      used := used - n;
      toReturn := toReturn + n;
      ok := toReturn < U32_BOUND;
    }

    method ReturnCredits(target: BufferSize) returns (r: Option<Option<GlobalCredits>>)
      modifies this
      ensures r.None? <==> ReturnToRemote(old(Value()), target).None?
      ensures r.Some? ==> ReturnToRemote(old(Value()), target) == Some((Value(), r.value))
    {
      var newTotal, changed := total, false;
      if target.size > newTotal {
        toReturn := toReturn + (target.size - newTotal);
        newTotal := target.size;
        changed := true;
      } else if target.size < newTotal {
        var superfluous := newTotal - target.size;
        var removed := if superfluous <= toReturn then superfluous else toReturn;
        toReturn := toReturn - removed;
        if removed > 0 {
          newTotal := newTotal - removed;
          changed := true;
        }
      }
      if changed {
        seqNo := (seqNo + 1) % 256;
        total := newTotal;
      }
      if !(0 < target.threshold <= target.size) {
        return None;
      }
      threshold := target.threshold;
      var returning := 0;
      if changed || target.force || toReturn >= target.threshold {
        returning := toReturn;
        toReturn := 0;
      }
      r := Some(if changed || returning > 0 then Some(GlobalCredits(returning, seqNo)) else None);
    }
  }
}
