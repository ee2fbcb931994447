/** The throttle on shared credits of one port, over every run of its methods. */
module Throttle {
  import opened Types
  import opened Credits

  datatype Call = Use(s: Split) | Release(s: Split) | Allow(on: bool) | Mark

  /** The monitor together with all requests made to the peer so far. */
  datatype Watched = Watched(m: Monitor, log: seq<bool>)

  function Logged(log: seq<bool>, evt: Option<bool>): seq<bool> {
    match evt
    case None => log
    case Some(b) => log + [b]
  }

  /** A call that reports a protocol error changes nothing further. */
  function Do(w: Watched, c: Call): Watched {
    match c
    case Use(s) => (match UseCredits(w.m, s) case Some(m) => w.(m := m) case None => w)
    case Release(s) =>
      (match StartReturn(w.m, s) case Some(r) => Watched(r.monitor, Logged(w.log, r.allow)) case None => w)
    case Allow(on) => var r := SetAllowed(w.m, on); Watched(r.monitor, Logged(w.log, r.allow))
    case Mark => var r := Inhibit(w.m); Watched(r.monitor, Logged(w.log, r.allow))
  }

  function Run(limit: u32, throttle: u32, calls: seq<Call>): Watched {
    if calls == [] then Watched(NewMonitor(limit, throttle), [])
    else Do(Run(limit, throttle, calls[..|calls| - 1]), calls[|calls| - 1])
  }

  /** Requests alternate, starting with one to stop. */
  predicate Alternates(log: seq<bool>) {
    forall i | 0 <= i < |log| :: log[i] == (i % 2 == 1)
  }

  /** What the last request made says; on their way to the peer requests can change places. */
  predicate LastAllows(log: seq<bool>) {
    log == [] || log[|log| - 1]
  }

  predicate Throttled(w: Watched) {
    && Alternates(w.log)
    && (w.m.usage == Inhibited <==> !LastAllows(w.log))
    && (!w.m.allowed ==> w.m.usage == Inhibited)
    && (w.m.allowed && InUse(w.m) < w.m.release ==> w.m.usage == Active)
    && 1 <= w.m.release <= w.m.throttle
  }

  lemma DoKeeps(w: Watched, c: Call)
    requires Throttled(w)
    ensures Throttled(Do(w, c))
  {
  }

  /**
   In every run the requests to stop and to resume alternate in the order in which they are
   made, the last one agrees with the state, a port the application disallows stays inhibited, and an allowed port that
   uses less than the release level is active.
   */
  lemma {:induction false} RunThrottled(limit: u32, throttle: u32, calls: seq<Call>)
    requires throttle >= 1
    ensures Throttled(Run(limit, throttle, calls))
  {
    if calls != [] {
      RunThrottled(limit, throttle, calls[..|calls| - 1]);
      DoKeeps(Run(limit, throttle, calls[..|calls| - 1]), calls[|calls| - 1]);
    }
  }
}

/**
 The same throttle with every access to an atomic as its own step. The multiplexer runs
 `Use` and `Mark`, the owner of the receiver runs the rest; each side finishes one call
 before it begins another.
 */
module ThrottleRace {
  import opened Types
  import opened Credits
  import opened Throttle

  datatype MuxAt = MuxIdle | AddedPort(port: nat, global: nat) | AddedBoth(total: nat)

  datatype AppAt =
    | AppIdle
    | TookPort(port: nat, global: nat)
    | TookBoth(total: nat)
    | Allowing
    | ReadPort(port: nat)
    | Reactivating
    | Disallowing

  datatype Race = Race(m: Monitor, log: seq<bool>, mux: MuxAt, app: AppAt)

  datatype Access =
    | UsePort(s: Split)
    | UseGlobalPart
    | UseDecide
    | MarkInhibited
    | ReleasePort(s: Split)
    | ReleaseGlobal
    | ReleaseCheck
    | SwapActive
    | SwapAllowed(on: bool)
    | LoadPort
    | LoadGlobal
    | SwapInhibited

  /** An access that its side is not ready for changes nothing. */
  function Take(r: Race, a: Access): Race {
    match a
    case UsePort(s) =>
      if r.mux.MuxIdle? && r.m.portUsed + s.port < U32_BOUND && r.m.portUsed + s.port <= r.m.limit
      then r.(m := r.m.(portUsed := r.m.portUsed + s.port), mux := AddedPort(r.m.portUsed + s.port, s.global)) else r
    case UseGlobalPart =>
      if r.mux.AddedPort? && r.m.globalUsed + r.mux.global < U32_BOUND
      then r.(m := r.m.(globalUsed := r.m.globalUsed + r.mux.global),
              mux := AddedBoth(SatAdd(r.mux.port, r.m.globalUsed + r.mux.global))) else r
    case UseDecide =>
      if !r.mux.AddedBoth? then r
      else if r.mux.total >= r.m.throttle && r.m.usage == Active then r.(m := r.m.(usage := Inhibiting), mux := MuxIdle)
      else r.(mux := MuxIdle)
    case MarkInhibited =>
      if r.mux.MuxIdle? && r.m.usage == Inhibiting then r.(m := r.m.(usage := Inhibited), log := r.log + [false]) else r
    case ReleasePort(s) =>
      if r.app.AppIdle? && s.port <= r.m.portUsed && s.global <= r.m.globalUsed
      then r.(m := r.m.(portUsed := r.m.portUsed - s.port), app := TookPort(r.m.portUsed - s.port, s.global)) else r
    case ReleaseGlobal =>
      if r.app.TookPort? && r.app.global <= r.m.globalUsed
      then r.(m := r.m.(globalUsed := r.m.globalUsed - r.app.global),
              app := TookBoth(SatAdd(r.app.port, r.m.globalUsed - r.app.global))) else r
    case ReleaseCheck =>
      if r.app.TookBoth? then r.(app := if r.app.total < r.m.release && r.m.allowed then Reactivating else AppIdle)
        else r
    case SwapActive =>
      if !r.app.Reactivating? then r
      else Race(r.m.(usage := Active), if r.m.usage == Inhibited then r.log + [true] else r.log, r.mux, AppIdle)
    case SwapAllowed(on) =>
      if !r.app.AppIdle? || r.m.allowed == on then r
      else r.(m := r.m.(allowed := on), app := if on then Allowing else Disallowing)
    case LoadPort =>
      if r.app.Allowing? then r.(app := ReadPort(r.m.portUsed)) else r
    case LoadGlobal =>
      if r.app.ReadPort?
      then r.(app := if SatAdd(r.app.port, r.m.globalUsed) < r.m.release then Reactivating else AppIdle) else r
    case SwapInhibited =>
      if !r.app.Disallowing? then r
      else Race(r.m.(usage := Inhibited), if r.m.usage != Inhibited then r.log + [false] else r.log, r.mux, AppIdle)
  }

  function TakeAll(r: Race, accesses: seq<Access>): Race {
    if accesses == [] then r else Take(TakeAll(r, accesses[..|accesses| - 1]), accesses[|accesses| - 1])
  }

  function Quiet(w: Watched): Race {
    Race(w.m, w.log, MuxIdle, AppIdle)
  }

  function Begin(limit: u32, throttle: u32): Race {
    Quiet(Watched(NewMonitor(limit, throttle), []))
  }

  // ---------------------------------------------------------------------------
  // A call run alone is its method
  // ---------------------------------------------------------------------------

  function Accesses(c: Call): seq<Access> {
    match c
    case Use(s) => [UsePort(s), UseGlobalPart, UseDecide]
    case Release(s) => [ReleasePort(s), ReleaseGlobal, ReleaseCheck, SwapActive]
    case Allow(on) => if on then [SwapAllowed(true), LoadPort, LoadGlobal, SwapActive]
      else [SwapAllowed(false), SwapInhibited]
    case Mark => [MarkInhibited]
  }

  /** Credits waiting to be returned belong to the returner alone and play no part here. */
  predicate SameThrottle(r: Race, w: Watched) {
    r.mux.MuxIdle? && r.app.AppIdle? && r.log == w.log && r.m == w.m.(toReturn := r.m.toReturn)
  }

  predicate Accepted(m: Monitor, c: Call) {
    (c.Use? ==> UseCredits(m, c.s).Some?) && (c.Release? ==> StartReturn(m, c.s).Some?)
  }

  lemma AloneIsMethod(w: Watched, c: Call)
    requires Accepted(w.m, c)
    ensures SameThrottle(TakeAll(Quiet(w), Accesses(c)), Do(w, c))
  {
    var parts := Accesses(c);
    TakeFour(Quiet(w), parts);
    hide TakeAll, Take;
    match c
    case Use(s) => UseAlone(w, s);
    case Release(s) => ReleaseAlone(w, s);
    case Allow(on) => AllowAlone(w, on);
    case Mark => MarkAlone(w);
  }

  lemma TakeFour(r: Race, parts: seq<Access>)
    ensures |parts| == 1 ==> TakeAll(r, parts) == Take(r, parts[0])
    ensures |parts| == 2 ==> TakeAll(r, parts) == Take(Take(r, parts[0]), parts[1])
    ensures |parts| == 3 ==> TakeAll(r, parts) == Take(Take(Take(r, parts[0]), parts[1]), parts[2])
    ensures |parts| == 4 ==> TakeAll(r, parts) == Take(Take(Take(Take(r, parts[0]), parts[1]), parts[2]), parts[3])
  {
    hide Take;
    if 1 < |parts| <= 4 {
      TakeFour(r, parts[..|parts| - 1]);
    } else if |parts| == 1 {
      assert TakeAll(r, parts[..0]) == r;
    }
  }

  lemma UseAlone(w: Watched, s: Split)
    requires Accepted(w.m, Use(s))
    ensures SameThrottle(Take(Take(Take(Quiet(w), UsePort(s)), UseGlobalPart), UseDecide), Do(w, Use(s)))
  {
    var r1 := Take(Quiet(w), UsePort(s));
    assert r1.mux == AddedPort(w.m.portUsed + s.port, s.global);
    var r2 := Take(r1, UseGlobalPart);
    assert r2 == Race(w.m.(portUsed := w.m.portUsed + s.port, globalUsed := w.m.globalUsed + s.global), w.log,
                      AddedBoth(SatAdd(w.m.portUsed + s.port, w.m.globalUsed + s.global)), AppIdle);
    hide SatAdd;
  }

  lemma ReleaseAlone(w: Watched, s: Split)
    requires Accepted(w.m, Release(s))
    ensures SameThrottle(Take(Take(Take(Take(Quiet(w), ReleasePort(s)), ReleaseGlobal), ReleaseCheck), SwapActive),
            Do(w, Release(s)))
  {
    hide ReturnThreshold;
    var r1 := Take(Quiet(w), ReleasePort(s));
    assert r1.app == TookPort(w.m.portUsed - s.port, s.global);
    var r2 := Take(r1, ReleaseGlobal);
    var m := w.m.(portUsed := w.m.portUsed - s.port, globalUsed := w.m.globalUsed - s.global);
    assert r2 == Race(m, w.log, MuxIdle, TookBoth(InUse(m)));
    hide SatAdd;
  }

  lemma AllowAlone(w: Watched, on: bool)
    ensures on ==> SameThrottle(Take(Take(Take(Take(Quiet(w), SwapAllowed(true)), LoadPort), LoadGlobal), SwapActive),
            Do(w, Allow(on)))
    ensures !on ==> SameThrottle(Take(Take(Quiet(w), SwapAllowed(false)), SwapInhibited), Do(w, Allow(on)))
  {
    hide SatAdd;
  }

  lemma MarkAlone(w: Watched)
    ensures SameThrottle(Take(Quiet(w), MarkInhibited), Do(w, Mark))
  {
  }

  // ---------------------------------------------------------------------------
  // What every interleaving keeps
  // ---------------------------------------------------------------------------

  predicate Guarded(r: Race) {
    && Alternates(r.log)
    && (r.m.usage == Inhibited <==> !LastAllows(r.log))
    && (r.app.Reactivating? || r.app.Allowing? || r.app.ReadPort? ==> r.m.allowed)
    && (r.app.Disallowing? ==> !r.m.allowed)
    && (!r.m.allowed && !r.app.Disallowing? ==> r.m.usage == Inhibited)
  }

  lemma TakeKeeps(r: Race, a: Access)
    requires Guarded(r)
    ensures Guarded(Take(r, a))
  {
  }

  /** Alternation, and that a disallowed port stays inhibited, survive every interleaving. */
  lemma {:induction false} EveryInterleaving(limit: u32, throttle: u32, accesses: seq<Access>)
    ensures Guarded(TakeAll(Begin(limit, throttle), accesses))
  {
    if accesses != [] {
      EveryInterleaving(limit, throttle, accesses[..|accesses| - 1]);
      TakeKeeps(TakeAll(Begin(limit, throttle), accesses[..|accesses| - 1]), accesses[|accesses| - 1]);
    }
  }

  // ---------------------------------------------------------------------------
  // What a race can break
  // ---------------------------------------------------------------------------

  /**
   Data arrives and is consumed before the arrival has been judged: the port ends up
   inhibited although nothing is in use and the application allows shared credits.
   */
  lemma IdleButInhibited(limit: u32, throttle: u32) returns (accesses: seq<Access>)
    requires 1 <= throttle <= limit
    ensures var r := TakeAll(Begin(limit, throttle), accesses);
            && r.mux.MuxIdle? && r.app.AppIdle? && r.m.allowed
            && InUse(r.m) == 0 < r.m.release && r.m.usage == Inhibited
  {
    var s := Split(throttle, 0);
    accesses := [];
    assert TakeAll(Begin(limit, throttle), []) == Begin(limit, throttle);
    hide TakeAll, Take, Begin, InUse, NewMonitor, Alternates;
    accesses := Then(limit, throttle, accesses, UsePort(s));
    accesses := Then(limit, throttle, accesses, UseGlobalPart);
    Arrives(limit, throttle);
    accesses := Then(limit, throttle, accesses, ReleasePort(s));
    accesses := Then(limit, throttle, accesses, ReleaseGlobal);
    accesses := Then(limit, throttle, accesses, ReleaseCheck);
    accesses := Then(limit, throttle, accesses, SwapActive);
    IsConsumed(limit, throttle);
    accesses := Then(limit, throttle, accesses, UseDecide);
    accesses := Then(limit, throttle, accesses, MarkInhibited);
    IsJudged(limit, throttle);
  }

  function Arrived(limit: u32, throttle: u32): Race {
    Race(NewMonitor(limit, throttle).(portUsed := throttle), [], AddedBoth(throttle), AppIdle)
  }

  lemma Arrives(limit: u32, throttle: u32)
    requires 1 <= throttle <= limit
    ensures Take(Take(Begin(limit, throttle), UsePort(Split(throttle, 0))), UseGlobalPart) == Arrived(limit, throttle)
  {
  }

  function Consumed(limit: u32, throttle: u32): Race {
    Race(NewMonitor(limit, throttle), [], AddedBoth(throttle), AppIdle)
  }

  lemma IsConsumed(limit: u32, throttle: u32)
    requires 1 <= throttle <= limit
    ensures Take(Take(Take(Take(Arrived(limit, throttle), ReleasePort(Split(throttle, 0))), ReleaseGlobal),
            ReleaseCheck), SwapActive)
         == Consumed(limit, throttle)
  {
    var m := NewMonitor(limit, throttle);
    assert Take(Take(Arrived(limit, throttle), ReleasePort(Split(throttle, 0))), ReleaseGlobal)
      == Race(m, [], AddedBoth(throttle), TookBoth(0));
  }

  lemma IsJudged(limit: u32, throttle: u32)
    requires 1 <= throttle <= limit
    ensures var r := Take(Take(Consumed(limit, throttle), UseDecide), MarkInhibited);
            && r.mux.MuxIdle? && r.app.AppIdle? && r.m.allowed
            && InUse(r.m) == 0 < r.m.release && r.m.usage == Inhibited
  {
  }

  lemma Then(limit: u32, throttle: u32, accesses: seq<Access>, a: Access) returns (more: seq<Access>)
    ensures TakeAll(Begin(limit, throttle), more) == Take(TakeAll(Begin(limit, throttle), accesses), a)
  {
    more := accesses + [a];
    assert more[..|accesses|] == accesses;
  }

  /** The next consumed item that leaves the use below the release level repairs this. */
  lemma NextReleaseRepairs(w: Watched, s: Split)
    requires Accepted(w.m, Release(s)) && w.m.allowed
    requires SatAdd(w.m.portUsed - s.port, w.m.globalUsed - s.global) < w.m.release
    ensures TakeAll(Quiet(w), Accesses(Release(s))).m.usage == Active
  {
    AloneIsMethod(w, Release(s));
  }

  // ---------------------------------------------------------------------------
  // When an allowed port below the release level is active
  // ---------------------------------------------------------------------------

  /** The owner of the receiver is about to look at the use, or to make the port active. */
  predicate Repairing(r: Race) {
    r.app.Reactivating? || r.app.Allowing? || r.app.ReadPort? || r.app.TookPort?
      || (r.app.TookBoth? && r.app.total < r.m.release)
  }

  /** An allowed port below the release level is active, unless its owner is at it already. */
  predicate ActiveBelowRelease(r: Race) {
    r.m.allowed && InUse(r.m) < r.m.release && r.m.usage != Active ==> Repairing(r)
  }

  /** A decision to inhibit, reached on a use that has been consumed in the meantime. */
  predicate Stale(r: Race, a: Access) {
    && a == UseDecide && r.mux.AddedBoth? && r.mux.total >= r.m.throttle && r.m.usage == Active
    && r.m.allowed && InUse(r.m) < r.m.release && !Repairing(r)
  }

  /** What the owner has read is no more than what is in use: only it takes away. */
  predicate Current(r: Race) {
    && 1 <= r.m.release <= r.m.throttle
    && (r.app.TookPort? ==> r.app.port <= r.m.portUsed && r.app.global <= r.m.globalUsed)
    && (r.app.TookBoth? ==> r.app.total <= InUse(r.m))
    && (r.app.ReadPort? ==> r.app.port <= r.m.portUsed)
    && (r.app.Reactivating? || r.app.Allowing? || r.app.ReadPort? ==> r.m.allowed)
    && (r.app.Disallowing? ==> !r.m.allowed)
  }

  lemma CurrentKept(r: Race, a: Access)
    requires Current(r)
    ensures Current(Take(r, a))
  {
  }

  /** One access keeps the property exactly if it is not a stale decision. */
  lemma StaleExactly(r: Race, a: Access)
    requires Current(r) && ActiveBelowRelease(r)
    ensures ActiveBelowRelease(Take(r, a)) <==> !Stale(r, a)
  {
  }

  lemma {:induction false} RunCurrent(limit: u32, throttle: u32, accesses: seq<Access>)
    requires throttle >= 1
    ensures Current(TakeAll(Begin(limit, throttle), accesses))
  {
    hide Take, Current;
    if accesses == [] {
      BeginCurrent(limit, throttle);
    } else {
      RunCurrent(limit, throttle, accesses[..|accesses| - 1]);
      CurrentKept(TakeAll(Begin(limit, throttle), accesses[..|accesses| - 1]), accesses[|accesses| - 1]);
    }
  }

  lemma BeginCurrent(limit: u32, throttle: u32)
    requires throttle >= 1
    ensures Current(Begin(limit, throttle)) && ActiveBelowRelease(Begin(limit, throttle))
  {
  }

  /** No decision of the run was stale when it was made. */
  predicate NoneStale(limit: u32, throttle: u32, accesses: seq<Access>) {
    forall k | 0 <= k < |accesses| :: !Stale(TakeAll(Begin(limit, throttle), accesses[..k]), accesses[k])
  }

  predicate AlwaysActive(limit: u32, throttle: u32, accesses: seq<Access>) {
    forall k | 0 <= k <= |accesses| :: ActiveBelowRelease(TakeAll(Begin(limit, throttle), accesses[..k]))
  }

  /**
   Over every interleaving the property holds throughout exactly if no decision was stale, and
   each stale decision, whatever came before it, breaks it.
   */
  lemma ActiveExactlyIf(limit: u32, throttle: u32, accesses: seq<Access>)
    requires throttle >= 1
    ensures AlwaysActive(limit, throttle, accesses) <==> NoneStale(limit, throttle, accesses)
    ensures forall k | 0 <= k < |accesses| && Stale(TakeAll(Begin(limit, throttle), accesses[..k]), accesses[k]) ::
              !ActiveBelowRelease(TakeAll(Begin(limit, throttle), accesses[..k + 1]))
  {
    ActiveIff(limit, throttle, accesses);
    forall k | 0 <= k < |accesses| && Stale(TakeAll(Begin(limit, throttle), accesses[..k]), accesses[k])
      ensures !ActiveBelowRelease(TakeAll(Begin(limit, throttle), accesses[..k + 1]))
    {
      assert accesses[..k + 1][..k] == accesses[..k];
      StaleBreaks(TakeAll(Begin(limit, throttle), accesses[..k]), accesses[k]);
      hide Take, Stale, ActiveBelowRelease;
    }
  }

  lemma StaleBreaks(r: Race, a: Access)
    requires Stale(r, a)
    ensures !ActiveBelowRelease(Take(r, a))
  {
  }

  lemma {:induction false} ActiveIff(limit: u32, throttle: u32, accesses: seq<Access>)
    requires throttle >= 1
    ensures AlwaysActive(limit, throttle, accesses) <==> NoneStale(limit, throttle, accesses)
  {
    hide Take, Current, Stale, ActiveBelowRelease;
    if accesses == [] {
      BeginCurrent(limit, throttle);
      assert forall k | 0 <= k <= |accesses| :: accesses[..k] == [];
    } else {
      var before, last := accesses[..|accesses| - 1], accesses[|accesses| - 1];
      ActiveIff(limit, throttle, before);
      AlwaysSplit(limit, throttle, accesses);
      NoneSplit(limit, throttle, accesses);
      RunCurrent(limit, throttle, before);
      if AlwaysActive(limit, throttle, before) {
        assert before[..|before|] == before;
        StaleExactly(TakeAll(Begin(limit, throttle), before), last);
      }
    }
  }

  lemma AlwaysSplit(limit: u32, throttle: u32, accesses: seq<Access>)
    requires accesses != []
    ensures AlwaysActive(limit, throttle, accesses) <==>
            && AlwaysActive(limit, throttle, accesses[..|accesses| - 1])
            && ActiveBelowRelease(TakeAll(Begin(limit, throttle), accesses))
  {
    hide TakeAll, ActiveBelowRelease;
    var before := accesses[..|accesses| - 1];
    Prefixes(accesses);
    if AlwaysActive(limit, throttle, accesses) {
      assert ActiveBelowRelease(TakeAll(Begin(limit, throttle), accesses[..|accesses|]));
      forall k | 0 <= k <= |before| ensures ActiveBelowRelease(TakeAll(Begin(limit, throttle), before[..k])) {
        assert ActiveBelowRelease(TakeAll(Begin(limit, throttle), accesses[..k]));
      }
    } else {
      var k :| 0 <= k <= |accesses| && !ActiveBelowRelease(TakeAll(Begin(limit, throttle), accesses[..k]));
      assert k < |accesses| ==> accesses[..k] == before[..k];
    }
  }

  lemma NoneSplit(limit: u32, throttle: u32, accesses: seq<Access>)
    requires accesses != []
    ensures NoneStale(limit, throttle, accesses) <==>
            && NoneStale(limit, throttle, accesses[..|accesses| - 1])
            && !Stale(TakeAll(Begin(limit, throttle), accesses[..|accesses| - 1]), accesses[|accesses| - 1])
  {
    hide TakeAll, Stale;
    var before := accesses[..|accesses| - 1];
    Prefixes(accesses);
    if NoneStale(limit, throttle, accesses) {
      forall k | 0 <= k < |before| ensures !Stale(TakeAll(Begin(limit, throttle), before[..k]), before[k]) {
        assert !Stale(TakeAll(Begin(limit, throttle), accesses[..k]), accesses[k]);
      }
    } else {
      var k :| 0 <= k < |accesses| && Stale(TakeAll(Begin(limit, throttle), accesses[..k]), accesses[k]);
      assert k < |before| ==> accesses[..k] == before[..k] && accesses[k] == before[k];
    }
  }

  lemma Prefixes(accesses: seq<Access>)
    requires accesses != []
    ensures accesses[..|accesses|] == accesses
    ensures forall k | 0 <= k < |accesses| :: accesses[..|accesses| - 1][..k] == accesses[..k]
    ensures forall k | 0 <= k < |accesses| - 1 :: accesses[..|accesses| - 1][k] == accesses[k]
  {
  }

  /**
   Whenever the owner of the receiver is between two calls and no decision was stale, an
   allowed port below the release level is active.
   */
  lemma ActiveWhenIdle(limit: u32, throttle: u32, accesses: seq<Access>)
    requires throttle >= 1 && NoneStale(limit, throttle, accesses)
    ensures var r := TakeAll(Begin(limit, throttle), accesses);
            r.app.AppIdle? && r.m.allowed && InUse(r.m) < r.m.release ==> r.m.usage == Active
  {
    ActiveExactlyIf(limit, throttle, accesses);
    assert accesses[..|accesses|] == accesses;
    assert ActiveBelowRelease(TakeAll(Begin(limit, throttle), accesses[..|accesses|]));
    hide TakeAll;
  }
}
