/** Sending ports over a port: four port credits each, in groups as credits allow. */
module Connect {
  import opened Types
  import opened Frames
  import opened Delivery
  import DataReceiver
  import SenderCredits

  const PORT_CREDITS: nat := 4

  /**
   The loop so far: ports still to send, credits at hand, groups sent, and the levels of the
   port's credit store at which the coming waits for credits will end.
   */
  datatype Progress = Progress(left: seq<nat>, credits: nat, groups: seq<seq<nat>>, levels: seq<nat>)

  /** A wait asks for four credits per port left and ends with at least four. */
  predicate Levels(levels: seq<nat>) {
    forall i | 0 <= i < |levels| :: levels[i] >= PORT_CREDITS
  }

  function Credits(p: Progress): nat {
    if p.credits > 0 || p.levels == [] then p.credits else Min(p.levels[0], PORT_CREDITS * |p.left|)
  }

  predicate Waits(p: Progress) {
    p.credits == 0 && p.levels == []
  }

  /** One turn of the loop; a finished or waiting loop stays as it is. */
  function Turn(p: Progress, chunk: nat): (r: Progress)
    ensures Flatten(r.groups) + r.left == Flatten(p.groups) + p.left
    ensures p.groups <= r.groups
  {
    if p.left == [] || Waits(p) then p
    else
      var c := Credits(p);
      var k := Min(|p.left|, Min(chunk, c) / PORT_CREDITS);
      FlattenAppend(p.groups, p.left[..k]);
      assert p.left == p.left[..k] + p.left[k..];
      Progress(p.left[k..], c - PORT_CREDITS * k, p.groups + [p.left[..k]],
        if p.credits > 0 then p.levels else p.levels[1..])
  }

  function Turns(p: Progress, chunk: nat, n: nat): (r: Progress)
    ensures Flatten(r.groups) + r.left == Flatten(p.groups) + p.left
    ensures p.groups <= r.groups
    decreases n
  {
    if n == 0 then p else Turns(Turn(p, chunk), chunk, n - 1)
  }

  function Start(ports: seq<nat>, levels: seq<nat>): Progress {
    Progress(ports, 0, [], levels)
  }

  /** The loop, given up by its caller after a number of turns unless it is done before. */
  method DoConnect(ports: seq<nat>, chunk: nat, levels: seq<nat>, turns: nat) returns (sent: seq<Frame>, done: bool)
    ensures var r := Turns(Start(ports, levels), chunk, turns);
            sent == PortFrames(r.groups, true, ports != [] && r.left == []) && done == (r.left == [])
  {
    hide Flatten, PortFrames, Turns, Turn;
    var left, credits: nat, waits, first := ports, 0, levels, true;
    ghost var groups: seq<seq<nat>> := [];
    ghost var goal := Turns(Start(ports, levels), chunk, turns);
    sent := [];
    var n: nat := turns;
    NoPortFrames();
    while left != [] && n > 0
      invariant Turns(Progress(left, credits, groups, waits), chunk, n) == goal
      invariant sent == PortFrames(groups, true, ports != [] && left == [])
      invariant first <==> groups == []
      invariant left != [] ==> ports != []
      decreases n
    {
      ghost var before := Progress(left, credits, groups, waits);
      if credits == 0 {
        if waits == [] {
          Waiting(before, chunk, n);
          return sent, false;
        }
        credits, waits := Min(waits[0], PORT_CREDITS * |left|), waits[1..];
      }
      var maxPorts := Min(chunk, credits) / PORT_CREDITS;
      var k := Min(|left|, maxPorts);
      var group, next := left[..k], left[k..];
      credits := credits - PORT_CREDITS * k;
      OneTurn(before, chunk, n, Progress(next, credits, groups + [group], waits));
      GroupSent(groups, group, next == []);
      sent := sent + [PortsFrame(group, first, next == [])];
      groups := groups + [group];
      left, first, n := next, false, n - 1;
    }
    if left == [] {
      Waiting(Progress(left, credits, groups, waits), chunk, n);
    } else {
      NoTurns(Progress(left, credits, groups, waits), chunk);
    }
    done := left == [];
  }

  lemma OneTurn(p: Progress, chunk: nat, n: nat, after: Progress)
    requires p.left != [] && n > 0 && !Waits(p)
    requires var c := Credits(p);
             var k := Min(|p.left|, Min(chunk, c) / PORT_CREDITS);
             && after.left == p.left[k..] && after.credits == c - PORT_CREDITS * k
                  && after.groups == p.groups + [p.left[..k]]
             && after.levels == if p.credits > 0 then p.levels else p.levels[1..]
    ensures Turns(p, chunk, n) == Turns(after, chunk, n - 1)
  {
  }

  lemma NoTurns(p: Progress, chunk: nat)
    ensures Turns(p, chunk, 0) == p
  {
  }

  lemma GroupSent(groups: seq<seq<nat>>, group: seq<nat>, last: bool)
    ensures PortFrames(groups + [group], true, last)
            == PortFrames(groups, true, false) + [PortsFrame(group, groups == [], last)]
  {
    PortFramesConcat(groups, [group], true, last);
    assert [group][1..] == [];
  }

  lemma NoPortFrames()
    ensures PortFrames([], true, false) == []
  {
  }

  lemma {:induction false} Waiting(p: Progress, chunk: nat, n: nat)
    requires p.left == [] || Waits(p)
    ensures Turns(p, chunk, n) == p
    decreases n
  {
    if n > 0 {
      Waiting(p, chunk, n - 1);
    }
  }

  // ---------------------------------------------------------------------------
  // What the groups cost
  // ---------------------------------------------------------------------------

  /** The credits obtained and not spent on the ports that have left since p are those at hand, capped or not. */
  predicate Balanced(p: Progress, r: Progress) {
    && |r.left| <= |p.left| && |r.levels| <= |p.levels| && r.levels == p.levels[|p.levels| - |r.levels|..]
    && var arrived := p.credits + SenderCredits.Total(p.levels[..|p.levels| - |r.levels|]);
       var used := PORT_CREDITS * (|p.left| - |r.left|) + r.credits;
       && used <= arrived
       && (used == arrived || r.credits == PORT_CREDITS * |r.left|)
  }

  /** A turn sends as many ports as the chunk and the credits at hand allow, and waits only without credits. */
  lemma TurnSends(p: Progress, chunk: nat)
    requires p.left != [] && !Waits(p)
    ensures var r := Turn(p, chunk);
            && |r.groups| == |p.groups| + 1
            && var c := if p.credits > 0 then p.credits else Min(p.levels[0], PORT_CREDITS * |p.left|);
               var g := |Last(r.groups)|;
               && |r.left| == |p.left| - g && r.credits == c - PORT_CREDITS * g
               && PORT_CREDITS * g <= Min(chunk, c)
               && (r.left == [] || Min(chunk, c) < PORT_CREDITS * (g + 1))
               && r.levels == if p.credits > 0 then p.levels else p.levels[1..]
  {
    hide Flatten;
  }

  function Last(groups: seq<seq<nat>>): seq<nat>
    requires groups != []
  {
    groups[|groups| - 1]
  }

  lemma {:induction false} CappedStays(p: Progress, chunk: nat, n: nat)
    requires p.credits == PORT_CREDITS * |p.left|
    ensures var r := Turns(p, chunk, n); r.credits == PORT_CREDITS * |r.left| && r.levels == p.levels
    decreases n
  {
    hide Flatten;
    if n > 0 {
      CappedStays(Turn(p, chunk), chunk, n - 1);
    }
  }

  /** A turn put before what follows. */
  lemma BalancedTurn(p: Progress, q: Progress, r: Progress)
    requires |q.left| <= |p.left| && Balanced(q, r)
    requires if p.credits > 0 then q.levels == p.levels else p.levels != [] && q.levels == p.levels[1..]
    requires var c := if p.credits > 0 then p.credits else Min(p.levels[0], PORT_CREDITS * |p.left|);
             q.credits == c - PORT_CREDITS * (|p.left| - |q.left|)
    requires q.credits == PORT_CREDITS * |q.left| ==> r.credits == PORT_CREDITS * |r.left|
    ensures Balanced(p, r)
  {
    if p.credits == 0 {
      var k := |p.levels| - |r.levels|;
      assert p.levels[..k][0] == p.levels[0] && p.levels[..k][1..] == q.levels[..k - 1];
    }
  }

  /**
   After any number of turns four credits have been paid for each port sent, out of those that
   the waits have brought: all of them, unless a wait brought more than the rest of the ports cost.
   */
  lemma {:induction false} PaidByWaits(p: Progress, chunk: nat, n: nat)
    ensures Balanced(p, Turns(p, chunk, n))
    decreases n
  {
    hide Flatten, Turn;
    if n == 0 || p.left == [] || Waits(p) {
      StaysPut(p, chunk, n);
      assert p.levels[..0] == [] && p.levels[0..] == p.levels;
    } else {
      hide Balanced;
      var q := Turn(p, chunk);
      TurnSends(p, chunk);
      PaidByWaits(q, chunk, n - 1);
      if q.credits == PORT_CREDITS * |q.left| {
        CappedStays(q, chunk, n - 1);
      }
      BalancedTurn(p, q, Turns(q, chunk, n - 1));
    }
  }

  lemma StaysPut(p: Progress, chunk: nat, n: nat)
    requires n == 0 || p.left == [] || Waits(p)
    ensures Turns(p, chunk, n) == p
  {
    if n == 0 {
      NoTurns(p, chunk);
    } else {
      Waiting(p, chunk, n);
    }
  }

  // ---------------------------------------------------------------------------
  // When the loop ends
  // ---------------------------------------------------------------------------

  /** Every wait ends with a multiple of four credits, or with enough for all ports left. */
  predicate Divisible(count: nat, levels: seq<nat>)
    requires Levels(levels)
    decreases |levels|
  {
    count == 0
    || (levels != []
        && (levels[0] >= PORT_CREDITS * count
            || (levels[0] % PORT_CREDITS == 0 && Divisible(count - levels[0] / PORT_CREDITS, levels[1..]))))
  }

  /** The same in the middle of the loop. */
  predicate Promising(p: Progress)
    requires Levels(p.levels)
  {
    if p.credits == 0 then Divisible(|p.left|, p.levels)
    else p.credits % PORT_CREDITS == 0 && p.credits / PORT_CREDITS <= |p.left|
         && Divisible(|p.left| - p.credits / PORT_CREDITS, p.levels)
  }

  predicate Running(p: Progress) {
    Levels(p.levels) && p.credits <= PORT_CREDITS * |p.left|
  }

  lemma TurnRuns(p: Progress, chunk: nat)
    requires Running(p) && chunk >= PORT_CREDITS
    ensures Running(Turn(p, chunk)) && (Promising(Turn(p, chunk)) <==> Promising(p))
    ensures Promising(p) && p.left != [] ==> |Turn(p, chunk).left| < |p.left|
  {
    hide Flatten;
    if p.left != [] && !Waits(p) {
      var c := Credits(p);
      var levels := Turn(p, chunk).levels;
      WaitForWhole(p);
      assert Promising(p) <==> c % PORT_CREDITS == 0 && Divisible(|p.left| - c / PORT_CREDITS, levels);
    }
  }

  /** A wait that ends with a multiple of four leaves what that many credits pay for. */
  lemma WaitForWhole(p: Progress)
    requires Running(p) && p.left != [] && !Waits(p)
    ensures var c := Credits(p);
            && 0 < c <= PORT_CREDITS * |p.left| && c / PORT_CREDITS <= |p.left|
            && (Promising(p) <==>
                  && c % PORT_CREDITS == 0
                  && Divisible(|p.left| - c / PORT_CREDITS, if p.credits > 0 then p.levels else p.levels[1..]))
  {
  }

  lemma {:induction false} PromisingEnds(p: Progress, chunk: nat, n: nat)
    requires Running(p) && chunk >= PORT_CREDITS && Promising(p) && n >= |p.left|
    ensures Turns(p, chunk, n).left == []
    decreases n
  {
    hide Promising;
    if p.left == [] {
      Waiting(p, chunk, n);
    } else {
      TurnRuns(p, chunk);
      PromisingEnds(Turn(p, chunk), chunk, n - 1);
    }
  }

  lemma {:induction false} OthersNeverEnd(p: Progress, chunk: nat, n: nat)
    requires Running(p) && chunk >= PORT_CREDITS && !Promising(p)
    ensures Turns(p, chunk, n).left != []
    decreases n
  {
    if n > 0 {
      TurnRuns(p, chunk);
      OthersNeverEnd(Turn(p, chunk), chunk, n - 1);
    }
  }

  /**
   All ports are sent exactly if every wait for credits ended with a multiple of four or with
   enough for the rest; then one turn per port suffices.
   */
  lemma ConnectEndsIff(ports: seq<nat>, chunk: nat, levels: seq<nat>)
    requires chunk >= PORT_CREDITS && Levels(levels)
    ensures Divisible(|ports|, levels) ==> Turns(Start(ports, levels), chunk, |ports|).left == []
    ensures !Divisible(|ports|, levels) ==> forall n: nat :: Turns(Start(ports, levels), chunk, n).left != []
  {
    var p := Start(ports, levels);
    if Divisible(|ports|, levels) {
      PromisingEnds(p, chunk, |ports|);
    } else {
      forall n: nat
        ensures Turns(p, chunk, n).left != []
      {
        OthersNeverEnd(p, chunk, n);
      }
    }
  }

  /** One to three credits left over: every further turn sends an empty group and nothing else happens. */
  lemma {:induction false} LeftoverSpins(p: Progress, chunk: nat, n: nat)
    requires p.left != [] && 0 < p.credits < PORT_CREDITS
    ensures Turns(p, chunk, n) == p.(groups := p.groups + seq(n, _ => []))
    decreases n
  {
    if n > 0 {
      assert Min(chunk, p.credits) / PORT_CREDITS == 0;
      assert p.left[0..] == p.left && p.left[..0] == [];
      var q := p.(groups := p.groups + [[]]);
      assert Turn(p, chunk) == q;
      LeftoverSpins(q, chunk, n - 1);
      assert p.groups + [[]] + seq(n - 1, _ => []) == p.groups + seq(n, _ => []);
    } else {
      assert p.groups + seq(0, _ => []) == p.groups;
    }
  }

  /** Two ports and a store of six credits: the second port is never sent. */
  lemma SixCreditsSpin(a: nat, b: nat, levels: seq<nat>, n: nat)
    requires Levels(levels)
    ensures Turns(Start([a, b], [6] + levels), 16, n + 1).left == [b]
  {
    var p := Start([a, b], [6] + levels);
    var q := Turn(p, 16);
    assert p.left[..1] == [a] && p.left[1..] == [b] && p.levels[1..] == levels;
    assert q == Progress([b], 2, [[a]], levels);
    LeftoverSpins(q, 16, n);
  }

  /** A loop that ends has sent a complete message with all ports in order. */
  lemma ConnectDelivers(ports: seq<nat>, chunk: nat, levels: seq<nat>, c: DataReceiver.Limits, rest: seq<Frame>)
    requires chunk >= PORT_CREDITS && Levels(levels) && Divisible(|ports|, levels) && ports != []
    requires Boundary(rest)
    ensures var groups := Turns(Start(ports, levels), chunk, |ports|).groups;
            && groups != [] && Flatten(groups) == ports
            && Outs(c, DataReceiver.Nothing, PortFrames(groups, true, true) + rest, None)
               == (if |ports| > c.maxPorts then [OverPortLimit] else [PortsMessage(ports)])
                 + Outs(c, DataReceiver.Nothing, rest, None)
  {
    ConnectEndsIff(ports, chunk, levels);
    var r := Turns(Start(ports, levels), chunk, |ports|);
    assert Flatten(r.groups) + [] == Flatten(r.groups);
    assert [] + ports == ports;
    Delivery.WholePorts(c, SentPorts(r.groups, true), rest);
  }
}
