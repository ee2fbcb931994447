/** When credits are paid, returned, withheld and allowed again, stated by the numbers alone. */
module CreditLaws {
  import opened Types
  import opened Sums
  import opened Credits
  import opened Throttle

  /**
   A payment uses up the oldest assignments one after the other: some are gone, one may be left
   in part, and the rest is untouched.
   */
  lemma {:induction false} OldestPayFirst(es: seq<Assigned>, n: nat) returns (gone: nat, part: nat)
    requires n <= Available(es)
    ensures gone <= |es| && n == Available(es[..gone]) + part
    ensures part > 0 ==> gone < |es| && part < es[gone].credits
    ensures Drain(es, n).0
            == if part == 0 then es[gone..] else [es[gone].(credits := es[gone].credits - part)] + es[gone + 1..]
    decreases |es|
  {
    if n == 0 || es == [] {
      gone, part := 0, 0;
      assert es[..0] == [] && es[0..] == es;
    } else if es[0].credits <= n {
      gone, part := OldestPayFirst(es[1..], n - es[0].credits);
      assert es[..gone + 1][0] == es[0] && es[..gone + 1][1..] == es[1..][..gone];
      gone := gone + 1;
    } else {
      gone, part := 0, n;
      assert es[..0] == [];
    }
  }

  // ---------------------------------------------------------------------------
  // Credits of a port
  // ---------------------------------------------------------------------------

  /** A quarter of the limit, and at least one credit; the source's exception for small limits never applies. */
  lemma QuarterReturned(limit: nat)
    ensures ReturnThreshold(limit) == Max(limit / 4, 1)
  {
  }

  /**
   Consumed data gives its credits back once a quarter of the limit has come together, then all
   of it; less than a quarter stays behind.
   */
  lemma PortReturns(m: Monitor, s: Split)
    requires StartReturn(m, s).Some?
    ensures var r, sum := StartReturn(m, s).value, m.toReturn + s.port;
            && r.monitor.portUsed == m.portUsed - s.port && r.monitor.globalUsed == m.globalUsed - s.global
            && (r.credits == if sum >= Max(m.limit / 4, 1) then Some(sum) else None)
            && r.monitor.toReturn == (if r.credits.Some? then 0 else sum)
            && r.monitor.toReturn < Max(m.limit / 4, 1)
  {
    QuarterReturned(m.limit);
    hide ReturnThreshold;
  }

  /**
   In every run: an active port starts being inhibited exactly by data that brings the use to
   the throttle; one that is not active becomes active exactly when the application allows
   shared credits and, as data is consumed or they are allowed again, the use is below three
   quarters of the throttle; it becomes inhibited exactly when a due request is made or shared
   credits are turned off. A request is made exactly when the port becomes inhibited or stops
   being it.
   */
  lemma SwitchesExactly(limit: u32, throttle: u32, calls: seq<Call>, c: Call)
    requires throttle >= 1
    ensures var w := Run(limit, throttle, calls);
            var m, m' := w.m, Do(w, c).m;
            var used := m'.portUsed + m'.globalUsed;
            && m.release == Max(throttle / 4 * 3, 1)
            && (m.usage.Active? && m'.usage.Inhibiting? <==>
                  m.usage.Active? && c.Use? && UseCredits(m, c.s).Some? && used >= throttle)
            && (!m.usage.Active? && m'.usage.Active? <==>
                  !m.usage.Active? && m'.allowed && used < Max(throttle / 4 * 3, 1)
                  && ((c.Release? && StartReturn(m, c.s).Some?) || (c.Allow? && c.on && !m.allowed)))
            && (!m.usage.Inhibited? && m'.usage.Inhibited? <==>
                  !m.usage.Inhibited? && ((c.Mark? && m.usage.Inhibiting?) || (c.Allow? && !c.on && m.allowed)))
            && Do(w, c).log == w.log + (if m.usage.Inhibited? && !m'.usage.Inhibited? then [true]
                                        else if !m.usage.Inhibited? && m'.usage.Inhibited? then [false] else [])
  {
    RunThrottled(limit, throttle, calls);
    RunConstants(limit, throttle, calls);
    hide Run, ReturnThreshold;
  }

  /** What accepted data has used and consumed data has released, counted from the outcomes of the calls. */
  function Ledger(limit: u32, throttle: u32, calls: seq<Call>): (int, int) {
    if calls == [] then (0, 0)
    else
      var (port, global) := Ledger(limit, throttle, calls[..|calls| - 1]);
      var c, m := calls[|calls| - 1], Run(limit, throttle, calls[..|calls| - 1]).m;
      if c.Use? && UseCredits(m, c.s).Some? then (port + c.s.port, global + c.s.global)
      else if c.Release? && StartReturn(m, c.s).Some? then (port - c.s.port, global - c.s.global)
      else (port, global)
  }

  /**
   In every run the credits in use are those accepted and not yet released, those of the port
   never exceed its limit, and data is refused exactly if it would exceed the limit or 32 bits.
   */
  lemma {:induction false} UsedAsCounted(limit: u32, throttle: u32, calls: seq<Call>, s: Split)
    ensures var m, (port, global) := Run(limit, throttle, calls).m, Ledger(limit, throttle, calls);
            && m.portUsed == port <= limit && m.globalUsed == global < U32_BOUND
            && (UseCredits(m, s).Some? <==> port + s.port <= limit && global + s.global < U32_BOUND)
  {
    RunConstants(limit, throttle, calls);
    if calls != [] {
      UsedAsCounted(limit, throttle, calls[..|calls| - 1], s);
      RunConstants(limit, throttle, calls[..|calls| - 1]);
      hide ReturnThreshold, SatAdd, SetAllowed, Inhibit;
    }
  }

  /** The application's last word; at first shared credits may be used. */
  function LastAsked(calls: seq<Call>): bool {
    if calls == [] then true
    else
      var c := calls[|calls| - 1];
      if c.Allow? then c.on else LastAsked(calls[..|calls| - 1])
  }

  /** In every run the port is allowed exactly what the application last asked for. */
  lemma {:induction false} AllowedAsAsked(limit: u32, throttle: u32, calls: seq<Call>)
    ensures Run(limit, throttle, calls).m.allowed == LastAsked(calls)
  {
    if calls != [] {
      AllowedAsAsked(limit, throttle, calls[..|calls| - 1]);
      hide ReturnThreshold, SatAdd;
    }
  }

  lemma {:induction false} RunConstants(limit: u32, throttle: u32, calls: seq<Call>)
    ensures var m := Run(limit, throttle, calls).m;
            m.limit == limit && m.throttle == throttle && m.release == Max(throttle / 4 * 3, 1)
  {
    hide ReturnThreshold;
    if calls != [] {
      RunConstants(limit, throttle, calls[..|calls| - 1]);
    }
  }

  // ---------------------------------------------------------------------------
  // Shared credits
  // ---------------------------------------------------------------------------

  /** Shared credits are charged exactly if the pool has them, and then counted as used; dropped data frees them. */
  lemma PoolUses(g: Global, n: nat)
    requires g.used <= g.total < U32_BOUND && g.used + g.toReturn < U32_BOUND
    ensures UseGlobal(g, n).Some? <==> g.used + n <= g.total
    ensures UseGlobal(g, n).Some? ==> UseGlobal(g, n).value == g.(used := g.used + n)
    ensures DropGlobal(g, n).Some? <==> n <= g.used
    ensures DropGlobal(g, n).Some? ==> DropGlobal(g, n).value == g.(used := g.used - n, toReturn := g.toReturn + n)
  {
  }

  /**
   A query grows the pool to its target at once and shrinks it by what is at hand. Credits go
   back, and then all there are, exactly if the pool has changed, the target asks for it or the
   threshold is reached; fewer than the threshold stay behind. The peer is told exactly if the
   pool has changed or credits go back, under a number that counts the changes.
   */
  lemma PoolReturns(g: Global, target: BufferSize)
    requires 0 < target.threshold <= target.size
    ensures ReturnToRemote(g, target).Some?
    ensures var (g', sent) := ReturnToRemote(g, target).value;
            var hand := if target.size > g.total then g.toReturn + (target.size - g.total)
                        else g.toReturn - Min(g.total - target.size, g.toReturn);
            && g'.total == (if target.size > g.total then target.size else Max(target.size, g.total - g.toReturn))
            && g'.used == g.used
            && g'.seqNo == (if g'.total != g.total then (g.seqNo + 1) % 256 else g.seqNo)
            && g'.toReturn < target.threshold
            && g'.toReturn == (if g'.total != g.total || target.force || hand >= target.threshold then 0 else hand)
            && sent == (if g'.total != g.total || hand > g'.toReturn
                        then Some(GlobalCredits(hand - g'.toReturn, g'.seqNo)) else None)
  {
  }
}
