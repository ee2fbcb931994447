/**
 The way of the requests to stop and to resume from the throttle of one port to the peer.

 The owner of the receiver puts a request into the channel to the multiplexer, or parks it in a
 task while the channel is full; parked requests leave in order, when the owner next gets its
 returner ready. The multiplexer sends its own requests to stop at once and the channel's one
 after the other. So requests can overtake each other, and the peer goes by the one that
 arrives last.
 */
module ThrottleWay {
  import opened Types
  import opened Credits
  import opened Throttle
  import opened ThrottleRace

  /** A request is its place in the log of the race. `hand` is the owner's between making and queueing it. */
  datatype Way = Way(
    race: Race,
    hand: Option<nat>,
    parked: seq<nat>,
    channel: seq<nat>,
    wire: seq<nat>,
    arrived: seq<nat>)

  datatype Step =
    | Access(a: Access)
    | Queue(room: bool)
    | Unpark
    | Forward
    | Deliver

  predicate ByMux(a: Access) {
    a.UsePort? || a.UseGlobalPart? || a.UseDecide? || a.MarkInhibited?
  }

  /** A release begins only after all parked events have gone. */
  predicate Possible(w: Way, a: Access) {
    ByMux(a) || (w.hand.None? && (a.ReleasePort? ==> w.parked == []))
  }

  /** Whether the access makes a request. */
  predicate Makes(w: Way, a: Access) {
    Possible(w, a) && |Take(w.race, a).log| > |w.race.log|
  }

  function DoAccess(w: Way, a: Access): Way {
    var i, w' := |w.race.log|, w.(race := Take(w.race, a));
    if !Possible(w, a) then w
    else if !Makes(w, a) then w'
    else if ByMux(a) then w'.(wire := w.wire + [i])
    else w'.(hand := Some(i))
  }

  function Next(w: Way, step: Step): Way {
    match step
    case Access(a) => DoAccess(w, a)
    case Queue(room) =>
      if w.hand.None? then w
      else if room then w.(hand := None, channel := w.channel + [w.hand.value])
      else w.(hand := None, parked := w.parked + [w.hand.value])
    case Unpark =>
      if w.parked == [] || w.hand.Some? then w else w.(parked := w.parked[1..], channel := w.channel + [w.parked[0]])
    case Forward => if w.channel == [] then w else w.(channel := w.channel[1..], wire := w.wire + [w.channel[0]])
    case Deliver => if w.wire == [] then w else w.(wire := w.wire[1..], arrived := w.arrived + [w.wire[0]])
  }

  function Start(limit: u32, throttle: u32): Way {
    Way(Begin(limit, throttle), None, [], [], [], [])
  }

  function Run(limit: u32, throttle: u32, steps: seq<Step>): Way {
    if steps == [] then Start(limit, throttle)
    else Next(Run(limit, throttle, steps[..|steps| - 1]), steps[|steps| - 1])
  }

  // ---------------------------------------------------------------------------
  // The order of arrival
  // ---------------------------------------------------------------------------

  function InHand(w: Way): seq<nat> {
    if w.hand.Some? then [w.hand.value] else []
  }

  /** What the multiplexer has not yet seen. */
  function Behind(w: Way): seq<nat> {
    w.channel + w.parked + InHand(w)
  }

  /** All requests in the order in which they have arrived or would arrive if nothing further happened. */
  function Line(w: Way): seq<nat> {
    w.arrived + w.wire + Behind(w)
  }

  /** What the request says that comes last in a line; without one shared credits may be used. */
  predicate LineAllows(log: seq<bool>, line: seq<nat>) {
    line == [] || (line[|line| - 1] < |log| && log[line[|line| - 1]])
  }

  /** What the peer goes by. */
  predicate PeerUses(w: Way) {
    LineAllows(w.race.log, w.arrived)
  }

  /** Once all requests have arrived the peer will go by the state of the port. */
  predicate Settles(w: Way) {
    LineAllows(w.race.log, Line(w)) <==> w.race.m.usage != Inhibited
  }

  predicate Quiet(w: Way) {
    w.wire == [] && Behind(w) == []
  }

  function FirstOnes(n: nat): multiset<nat> {
    if n == 0 then multiset{} else FirstOnes(n - 1) + multiset{n - 1}
  }

  lemma {:induction false} OfEachOne(n: nat, i: nat)
    ensures FirstOnes(n)[i] == if i < n then 1 else 0
  {
    if n > 0 {
      OfEachOne(n - 1, i);
    }
  }

  /** Every request made is in the line once. */
  predicate Complete(w: Way) {
    multiset(Line(w)) == FirstOnes(|w.race.log|)
  }

  /** A new request goes to the end of the line. */
  predicate Renews(w: Way, step: Step) {
    step.Access? && Makes(w, step.a) && (!ByMux(step.a) || Behind(w) == [])
  }

  /**
   A request overtakes one that says the opposite: the multiplexer stops the peer while one is
   behind it, or the owner finds room in the channel while others are parked.
   */
  predicate Flips(w: Way, step: Step) {
    match step
    case Access(a) => Makes(w, a) && ByMux(a) && Behind(w) != []
    case Queue(room) =>
      room && w.hand.Some? && w.parked != []
        && LineAllows(w.race.log, w.parked) != LineAllows(w.race.log, [w.hand.value])
    case _ => false
  }

  // ---------------------------------------------------------------------------
  // Single steps
  // ---------------------------------------------------------------------------

  /** One access makes at most one request, the opposite of the last one. */
  lemma OneRequest(r: Race, a: Access)
    requires Guarded(r)
    ensures Guarded(Take(r, a))
    ensures var log := Take(r, a).log; log == r.log || log == r.log + [!LastAllows(r.log)]
  {
    TakeKeeps(r, a);
  }

  lemma LineOfAccess(w: Way, a: Access)
    ensures var w' := DoAccess(w, a);
            && (!Makes(w, a) ==> Line(w') == Line(w))
            && (Makes(w, a) && !ByMux(a) ==> Line(w') == Line(w) + [|w.race.log|])
            && (Makes(w, a) && ByMux(a) ==> Line(w') == w.arrived + w.wire + [|w.race.log|] + Behind(w))
  {
    hide Take;
  }

  lemma LineOfQueue(w: Way, room: bool)
    requires w.hand.Some?
    ensures var w' := Next(w, Queue(room));
            && w'.race == w.race
            && Line(w') == (if room then w.arrived + w.wire + w.channel + [w.hand.value] + w.parked else Line(w))
  {
    assert w.parked + [w.hand.value] + [] == w.parked + [w.hand.value];
  }

  lemma LineOfUnpark(w: Way)
    ensures Next(w, Unpark).race == w.race && Line(Next(w, Unpark)) == Line(w)
  {
    if w.parked != [] && w.hand.None? {
      assert Behind(Next(w, Unpark)) == Behind(w);
    }
  }

  lemma LineOfForward(w: Way)
    ensures Next(w, Forward).race == w.race && Line(Next(w, Forward)) == Line(w)
  {
    if w.channel != [] {
      var after := w.parked + InHand(w);
      assert Line(w) == w.arrived + w.wire + (w.channel + after) by {
        assert w.channel + w.parked + InHand(w) == w.channel + after;
      }
      assert Line(Next(w, Forward)) == w.arrived + (w.wire + [w.channel[0]]) + (w.channel[1..] + after) by {
        assert w.channel[1..] + w.parked + InHand(w) == w.channel[1..] + after;
      }
      hide InHand, Line, Next;
      assert w.arrived + w.wire + (w.channel + after)
        == w.arrived + (w.wire + [w.channel[0]]) + (w.channel[1..] + after);
    }
  }

  lemma LineOfDeliver(w: Way)
    ensures Next(w, Deliver).race == w.race && Line(Next(w, Deliver)) == Line(w)
  {
    assert Behind(Next(w, Deliver)) == Behind(w);
    hide Behind;
    if w.wire != [] {
      assert (w.arrived + [w.wire[0]]) + w.wire[1..] == w.arrived + w.wire;
    }
  }

  /** Moves along the way change the order only when the owner passes parked requests. */
  lemma LineOfMove(w: Way, step: Step)
    requires !step.Access?
    ensures var w' := Next(w, step);
            && w'.race == w.race
            && (if step == Queue(true) && w.hand.Some?
                then Line(w') == w.arrived + w.wire + w.channel + [w.hand.value] + w.parked
                else Line(w') == Line(w))
  {
    match step
    case Queue(room) =>
      if w.hand.Some? {
        LineOfQueue(w, room);
        hide Next, Line;
      }
    case Unpark => LineOfUnpark(w); hide Next, Line;
    case Forward => LineOfForward(w); hide Next, Line;
    case Deliver => LineOfDeliver(w); hide Next, Line;
  }

  lemma InsertedOnce(a: seq<nat>, i: nat, b: seq<nat>)
    ensures multiset(a + [i] + b) == multiset(a + b) + multiset{i}
    ensures multiset(a + [i]) == multiset(a) + multiset{i}
    ensures multiset(a + [i] + b) == multiset(a + b + [i])
  {
  }

  lemma AccessKeepsComplete(w: Way, a: Access)
    requires Complete(w) && Guarded(w.race)
    ensures Complete(DoAccess(w, a))
  {
    OneRequest(w.race, a);
    LineOfAccess(w, a);
    RequestKeepsComplete(w, DoAccess(w, a));
    hide Take, Guarded, Line, Behind, ByMux, Complete;
  }

  /** A new request joins the line, at its end or ahead of what the multiplexer has not seen. */
  lemma RequestKeepsComplete(w: Way, w': Way)
    requires Complete(w)
    requires |w'.race.log| == |w.race.log| ==> Line(w') == Line(w)
    requires |w'.race.log| == |w.race.log| || |w'.race.log| == |w.race.log| + 1
    requires |w'.race.log| > |w.race.log| ==>
               || Line(w') == Line(w) + [|w.race.log|]
               || Line(w') == w.arrived + w.wire + [|w.race.log|] + Behind(w)
    ensures Complete(w')
  {
    InsertedOnce(w.arrived + w.wire, |w.race.log|, Behind(w));
    InsertedOnce(Line(w), |w.race.log|, []);
    hide Behind;
  }

  lemma MoveKeepsComplete(w: Way, step: Step)
    requires Complete(w) && !step.Access?
    ensures Complete(Next(w, step))
  {
    LineOfMove(w, step);
    if step == Queue(true) && w.hand.Some? {
      PassedSame(w);
    }
    hide Next, Line;
  }

  lemma PassedSame(w: Way)
    requires w.hand.Some?
    ensures multiset(w.arrived + w.wire + w.channel + [w.hand.value] + w.parked) == multiset(Line(w))
  {
    var front := w.arrived + w.wire + w.channel;
    InsertedOnce(front, w.hand.value, w.parked);
    assert Line(w) == front + w.parked + [w.hand.value];
  }

  lemma CompleteKept(w: Way, step: Step)
    requires Complete(w) && Guarded(w.race)
    ensures Complete(Next(w, step)) && Guarded(Next(w, step).race)
  {
    if step.Access? {
      AccessKeepsComplete(w, step.a);
      OneRequest(w.race, step.a);
    } else {
      MoveKeepsComplete(w, step);
      LineOfMove(w, step);
    }
    hide Complete, Guarded, Take, Line;
  }

  lemma LastOf(a: seq<nat>, b: seq<nat>)
    requires b != []
    ensures a + b != [] && (a + b)[|a + b| - 1] == b[|b| - 1]
  {
  }

  /** What a longer log says about requests already made. */
  lemma LongerLog(log: seq<bool>, b: bool, line: seq<nat>)
    requires line != [] ==> line[|line| - 1] < |log|
    ensures LineAllows(log + [b], line) == LineAllows(log, line)
    ensures LineAllows(log + [b], line + [|log|]) == b
  {
  }

  /** Whether the peer will agree changes exactly with a request that overtakes an opposite one. */
  lemma AccessSettles(w: Way, a: Access)
    requires Guarded(w.race) && Complete(w)
    ensures var w', step := DoAccess(w, a), Access(a);
            Settles(w') <==> if Renews(w, step) then true else if Flips(w, step) then !Settles(w) else Settles(w)
  {
    hide Take, Complete, Behind, ByMux, Line, LineAllows, Settles, DoAccess, Makes;
    AccessMade(w, a);
    LineOfAccess(w, a);
    LastInLog(w);
    if !Makes(w, a) {
      SettlesSame(w, DoAccess(w, a));
    } else {
      RequestSettles(w, DoAccess(w, a));
      if Behind(w) == [] {
        EndOfLine(w);
      } else {
        LineEnds(w);
      }
    }
  }

  lemma AccessMade(w: Way, a: Access)
    requires Guarded(w.race)
    ensures var race := DoAccess(w, a).race;
            Guarded(race) && race.log == if Makes(w, a) then w.race.log + [!LastAllows(w.race.log)] else w.race.log
  {
    OneRequest(w.race, a);
    hide Take, Guarded;
  }

  lemma SettlesSame(w: Way, w': Way)
    requires Guarded(w.race) && Guarded(w'.race) && w'.race.log == w.race.log && Line(w') == Line(w)
    ensures Settles(w') <==> Settles(w)
  {
    hide Line;
  }

  lemma EndOfLine(w: Way)
    requires Behind(w) == []
    ensures w.arrived + w.wire + [|w.race.log|] + Behind(w) == Line(w) + [|w.race.log|]
  {
    hide Behind;
  }

  lemma LineEnds(w: Way)
    requires Behind(w) != []
    ensures var ahead := w.arrived + w.wire + [|w.race.log|] + Behind(w);
            Line(w) != [] && ahead != [] && ahead[|ahead| - 1] == Line(w)[|Line(w)| - 1]
  {
    LastOf(w.arrived + w.wire, Behind(w));
    LastOf(w.arrived + w.wire + [|w.race.log|], Behind(w));
    hide Behind;
  }

  /** After a new request: at the end of the line it settles things, ahead of the last one it turns them around. */
  lemma RequestSettles(w: Way, w': Way)
    requires Guarded(w.race) && Guarded(w'.race) && w'.race.log == w.race.log + [!LastAllows(w.race.log)]
    requires Line(w) != [] ==> Line(w)[|Line(w)| - 1] < |w.race.log|
    ensures Line(w') == Line(w) + [|w.race.log|] ==> Settles(w')
    ensures Line(w) != [] && Line(w') != [] && Line(w')[|Line(w')| - 1] == Line(w)[|Line(w)| - 1] ==>
              (Settles(w') <==> !Settles(w))
  {
    LongerLog(w.race.log, !LastAllows(w.race.log), Line(w));
    hide Line, Alternates;
  }

  lemma LastInLog(w: Way)
    requires Complete(w)
    ensures Line(w) != [] ==> Line(w)[|Line(w)| - 1] < |w.race.log|
  {
    if Line(w) != [] {
      var i := Line(w)[|Line(w)| - 1];
      assert i in multiset(Line(w));
      OfEachOne(|w.race.log|, i);
    }
  }

  lemma MoveSettles(w: Way, step: Step)
    requires !step.Access?
    ensures !Renews(w, step)
    ensures Settles(Next(w, step)) <==> if Flips(w, step) then !Settles(w) else Settles(w)
  {
    LineOfMove(w, step);
    if step == Queue(true) && w.hand.Some? {
      var front := w.arrived + w.wire + w.channel;
      assert Line(w) == front + w.parked + [w.hand.value];
      if w.parked != [] {
        LastOf(front + [w.hand.value], w.parked);
      } else {
        assert front + [w.hand.value] + [] == front + [] + [w.hand.value];
      }
    }
    hide Next, Line;
  }

  lemma StepSettles(w: Way, step: Step)
    requires Guarded(w.race) && Complete(w)
    ensures Settles(Next(w, step))
            <==> if Renews(w, step) then true else if Flips(w, step) then !Settles(w) else Settles(w)
  {
    if step.Access? {
      AccessSettles(w, step.a);
    } else {
      MoveSettles(w, step);
    }
    hide Settles, Flips, Renews, Take;
  }

  // ---------------------------------------------------------------------------
  // Every run
  // ---------------------------------------------------------------------------

  lemma {:induction false} RunComplete(limit: u32, throttle: u32, steps: seq<Step>)
    ensures Complete(Run(limit, throttle, steps)) && Guarded(Run(limit, throttle, steps).race)
  {
    hide Next, Complete, Guarded;
    if steps == [] {
      StartComplete(limit, throttle);
    } else {
      RunComplete(limit, throttle, steps[..|steps| - 1]);
      CompleteKept(Run(limit, throttle, steps[..|steps| - 1]), steps[|steps| - 1]);
    }
  }

  lemma StartComplete(limit: u32, throttle: u32)
    ensures Complete(Start(limit, throttle)) && Guarded(Start(limit, throttle).race) && Settles(Start(limit, throttle))
  {
  }

  /** How often a request has overtaken an opposite one since one last went to the end of the line. */
  function Overtakings(limit: u32, throttle: u32, steps: seq<Step>): nat {
    if steps == [] then 0
    else
      var before, step := steps[..|steps| - 1], steps[|steps| - 1];
      var w := Run(limit, throttle, before);
      if Renews(w, step) then 0 else Overtakings(limit, throttle, before) + if Flips(w, step) then 1 else 0
  }

  lemma {:induction false} SettlesExactlyIf(limit: u32, throttle: u32, steps: seq<Step>)
    ensures Settles(Run(limit, throttle, steps)) <==> Overtakings(limit, throttle, steps) % 2 == 0
  {
    hide Next, Complete, Guarded, Settles, Renews, Flips;
    if steps == [] {
      StartComplete(limit, throttle);
    } else {
      var before, step := steps[..|steps| - 1], steps[|steps| - 1];
      SettlesExactlyIf(limit, throttle, before);
      RunComplete(limit, throttle, before);
      StepSettles(Run(limit, throttle, before), step);
    }
  }

  lemma Parity(log: seq<bool>, line: seq<nat>)
    requires Alternates(log) && line != [] && line[|line| - 1] < |log|
    ensures (LineAllows(log, line) <==> LastAllows(log)) <==> (|log| - 1 - line[|line| - 1]) % 2 == 0
  {
  }

  /**
   In every run with nothing left under way, each request made has arrived once, and the peer
   goes by the state of the port exactly if requests have overtaken opposite ones an even
   number of times since one last went to the end of the line; in other words, if an even
   number of requests was made after the one that arrived last.
   */
  lemma PeerAgreesExactly(limit: u32, throttle: u32, steps: seq<Step>, i: nat)
    requires Quiet(Run(limit, throttle, steps))
    ensures var w := Run(limit, throttle, steps);
            && multiset(w.arrived)[i] == (if i < |w.race.log| then 1 else 0)
            && ((PeerUses(w) <==> w.race.m.usage != Inhibited) <==> Overtakings(limit, throttle, steps) % 2 == 0)
            && (w.arrived != [] ==> (Overtakings(limit, throttle, steps) % 2 == 0
                                     <==> (|w.race.log| - 1 - w.arrived[|w.arrived| - 1]) % 2 == 0))
  {
    hide *;
    RunComplete(limit, throttle, steps);
    SettlesExactlyIf(limit, throttle, steps);
    ArrivedInFull(Run(limit, throttle, steps), i);
    if Run(limit, throttle, steps).arrived != [] {
      ArrivedLast(Run(limit, throttle, steps));
    }
  }

  lemma LineIsArrived(w: Way)
    requires Quiet(w)
    ensures Line(w) == w.arrived
  {
    hide Behind;
    assert w.arrived + [] + [] == w.arrived;
  }

  lemma ArrivedInFull(w: Way, i: nat)
    requires Complete(w) && Quiet(w)
    ensures multiset(w.arrived)[i] == (if i < |w.race.log| then 1 else 0)
    ensures Settles(w) <==> (PeerUses(w) <==> w.race.m.usage != Inhibited)
  {
    OfEachOne(|w.race.log|, i);
    LineIsArrived(w);
    hide Behind, FirstOnes, LineAllows, Line;
  }

  lemma ArrivedLast(w: Way)
    requires Complete(w) && Quiet(w) && Guarded(w.race) && w.arrived != []
    ensures Settles(w) <==> (|w.race.log| - 1 - w.arrived[|w.arrived| - 1]) % 2 == 0
  {
    LineIsArrived(w);
    LastInLog(w);
    assert Settles(w) <==> (LineAllows(w.race.log, w.arrived) <==> w.race.m.usage != Inhibited);
    assert Alternates(w.race.log) && (w.race.m.usage == Inhibited <==> !LastAllows(w.race.log));
    hide *;
    Parity(w.race.log, w.arrived);
  }

  predicate NoneFlips(limit: u32, throttle: u32, steps: seq<Step>) {
    forall k | 0 <= k < |steps| :: !Flips(Run(limit, throttle, steps[..k]), steps[k])
  }

  predicate AlwaysSettles(limit: u32, throttle: u32, steps: seq<Step>) {
    forall k | 0 <= k <= |steps| :: Settles(Run(limit, throttle, steps[..k]))
  }

  /** The peer will agree throughout a run exactly if no request ever overtakes an opposite one. */
  lemma AlwaysSettlesExactlyIf(limit: u32, throttle: u32, steps: seq<Step>)
    ensures AlwaysSettles(limit, throttle, steps) <==> NoneFlips(limit, throttle, steps)
  {
    hide Run, Settles, Flips;
    if NoneFlips(limit, throttle, steps) {
      forall k | 0 <= k <= |steps|
        ensures Settles(Run(limit, throttle, steps[..k]))
      {
        SettledBefore(limit, throttle, steps, k);
      }
    } else {
      var k :| 0 <= k < |steps| && Flips(Run(limit, throttle, steps[..k]), steps[k]);
      FlipAt(limit, throttle, steps, k);
      assert !Settles(Run(limit, throttle, steps[..k])) || !Settles(Run(limit, throttle, steps[..k + 1]));
    }
  }

  lemma {:induction false} SettledBefore(limit: u32, throttle: u32, steps: seq<Step>, k: nat)
    requires NoneFlips(limit, throttle, steps) && k <= |steps|
    ensures Settles(Run(limit, throttle, steps[..k]))
  {
    hide Settles, Flips, Next, Complete, Guarded, Renews;
    if k == 0 {
      StartComplete(limit, throttle);
    } else {
      SettledBefore(limit, throttle, steps, k - 1);
      assert steps[..k][..k - 1] == steps[..k - 1];
      RunComplete(limit, throttle, steps[..k - 1]);
      StepSettles(Run(limit, throttle, steps[..k - 1]), steps[k - 1]);
    }
  }

  lemma FlipAt(limit: u32, throttle: u32, steps: seq<Step>, k: nat)
    requires k < |steps| && Flips(Run(limit, throttle, steps[..k]), steps[k])
    ensures Settles(Run(limit, throttle, steps[..k])) ==> !Settles(Run(limit, throttle, steps[..k + 1]))
  {
    assert steps[..k + 1][..k] == steps[..k];
    RunComplete(limit, throttle, steps[..k]);
    StepSettles(Run(limit, throttle, steps[..k]), steps[k]);
    hide Next, Settles, Complete, Guarded, Makes;
  }

  // ---------------------------------------------------------------------------
  // Two runs
  // ---------------------------------------------------------------------------

  lemma Then(limit: u32, throttle: u32, steps: seq<Step>, step: Step) returns (more: seq<Step>)
    ensures Run(limit, throttle, more) == Next(Run(limit, throttle, steps), step)
  {
    more := steps + [step];
    assert more[..|steps|] == steps;
  }

  function Switched(limit: u32, throttle: u32, log: seq<bool>): Race {
    var m := NewMonitor(limit, throttle);
    var on := LastAllows(log);
    Race(m.(allowed := on, usage := if on then Active else Inhibited), log, MuxIdle, AppIdle)
  }

  /** The application turns shared credits off. */
  lemma TurnsOff(w: Way, limit: u32, throttle: u32, log: seq<bool>)
    requires w == Way(Switched(limit, throttle, log), None, w.parked, w.channel, w.wire, w.arrived) && LastAllows(log)
    ensures Next(Next(w, Access(SwapAllowed(false))), Access(SwapInhibited))
         == w.(race := Switched(limit, throttle, log + [false]), hand := Some(|log|))
  {
    var w1 := w.(race := w.race.(m := w.race.m.(allowed := false), app := Disallowing));
    assert Next(w, Access(SwapAllowed(false))) == w1;
  }

  /** And on again. */
  lemma TurnsOn(w: Way, limit: u32, throttle: u32, log: seq<bool>)
    requires w == Way(Switched(limit, throttle, log), None, w.parked, w.channel, w.wire, w.arrived) && !LastAllows(log)
    ensures Next(Next(Next(Next(w, Access(SwapAllowed(true))), Access(LoadPort)), Access(LoadGlobal)),
            Access(SwapActive))
         == w.(race := Switched(limit, throttle, log + [true]), hand := Some(|log|))
  {
    var m := w.race.m.(allowed := true);
    var w1 := w.(race := w.race.(m := m, app := Allowing));
    assert Next(w, Access(SwapAllowed(true))) == w1;
    var w2 := w.(race := w.race.(m := m, app := ReadPort(0)));
    assert Next(w1, Access(LoadPort)) == w2;
    var w3 := w.(race := w.race.(m := m, app := Reactivating));
    assert Next(w2, Access(LoadGlobal)) == w3;
  }

  const OFF_ON_OFF := [false, true, false]

  /** Turned off, and on again; the second request is parked. */
  lemma OffAndOn(limit: u32, throttle: u32) returns (steps: seq<Step>)
    ensures Run(limit, throttle, steps) == Way(Switched(limit, throttle, [false, true]), None, [1], [0], [], [])
  {
    steps := [];
    var w0 := Run(limit, throttle, steps);
    assert w0 == Way(Switched(limit, throttle, []), None, [], [], [], []);
    hide Run, Take, ByMux, Makes, Possible, Switched;
    steps := Then(limit, throttle, steps, Access(SwapAllowed(false)));
    steps := Then(limit, throttle, steps, Access(SwapInhibited));
    steps := Then(limit, throttle, steps, Queue(true));
    TurnsOff(w0, limit, throttle, []);
    var w1 := Way(Switched(limit, throttle, [false]), None, [], [0], [], []);
    assert Run(limit, throttle, steps) == w1 by { assert [] + [false] == [false] && [] + [0 as nat] == [0]; }
    steps := Then(limit, throttle, steps, Access(SwapAllowed(true)));
    steps := Then(limit, throttle, steps, Access(LoadPort));
    steps := Then(limit, throttle, steps, Access(LoadGlobal));
    steps := Then(limit, throttle, steps, Access(SwapActive));
    steps := Then(limit, throttle, steps, Queue(false));
    TurnsOn(w1, limit, throttle, [false]);
    assert [false] + [true] == [false, true] && [] + [1 as nat] == [1];
  }

  /** The second request was parked, the third found room. */
  lemma AllUnderWay(limit: u32, throttle: u32) returns (steps: seq<Step>)
    ensures Run(limit, throttle, steps) == Way(Switched(limit, throttle, OFF_ON_OFF), None, [1], [0, 2], [], [])
  {
    steps := OffAndOn(limit, throttle);
    hide Run, Take, ByMux, Makes, Possible, Switched;
    var w := Run(limit, throttle, steps);
    steps := Then(limit, throttle, steps, Access(SwapAllowed(false)));
    steps := Then(limit, throttle, steps, Access(SwapInhibited));
    steps := Then(limit, throttle, steps, Queue(true));
    TurnsOff(w, limit, throttle, [false, true]);
    assert [false, true] + [false] == OFF_ON_OFF && [0 as nat] + [2] == [0, 2];
  }

  lemma AllArrive(w: Way)
    requires w.hand.None? && w.parked == [1] && w.channel == [0, 2] && w.wire == [] && w.arrived == []
    ensures var w1 := Next(Next(Next(Next(w, Unpark), Forward), Forward), Forward);
            Next(Next(Next(w1, Deliver), Deliver), Deliver) == w.(parked := [], channel := [], arrived := [0, 2, 1])
  {
    var w1 := Next(w, Unpark);
    assert w1 == w.(parked := [], channel := [0, 2, 1]) by { assert [1 as nat][1..] == []; }
    var w2 := Next(Next(Next(w1, Forward), Forward), Forward);
    assert w2 == w1.(channel := [], wire := [0, 2, 1]) by {
      assert [0 as nat, 2, 1][1..] == [2, 1] && [2 as nat, 1][1..] == [1] && [1 as nat][1..] == [];
      assert [] + [0 as nat] == [0] && [0 as nat] + [2] == [0, 2] && [0 as nat, 2] + [1] == [0, 2, 1];
    }
    assert [0 as nat, 2, 1][1..] == [2, 1] && [2 as nat, 1][1..] == [1] && [1 as nat][1..] == [];
    assert [] + [0 as nat] == [0] && [0 as nat] + [2] == [0, 2] && [0 as nat, 2] + [1] == [0, 2, 1];
  }

  /**
   Turned off, on and off again while the channel is full in between: the peer goes on using
   shared credits although nothing is under way and the application has turned them off.
   */
  lemma OwnRequestOvertaken(limit: u32, throttle: u32) returns (steps: seq<Step>)
    ensures var w := Run(limit, throttle, steps);
            TurnedOff(w) && w.race.log == OFF_ON_OFF && w.arrived == [0, 2, 1] && PeerUses(w)
  {
    steps := AllUnderWay(limit, throttle);
    AllArrive(Run(limit, throttle, steps));
    hide Run, Next;
    steps := Then(limit, throttle, steps, Unpark);
    steps := Then(limit, throttle, steps, Forward);
    steps := Then(limit, throttle, steps, Forward);
    steps := Then(limit, throttle, steps, Forward);
    steps := Then(limit, throttle, steps, Deliver);
    steps := Then(limit, throttle, steps, Deliver);
    steps := Then(limit, throttle, steps, Deliver);
  }

  /** The owner is between two calls, or releases data. */
  predicate Idle(w: Way) {
    w.hand.None? && (w.race.app.AppIdle? || w.race.app.TookPort? || w.race.app.TookBoth?)
  }

  function Continue(w: Way, steps: seq<Step>): Way {
    if steps == [] then w else Next(Continue(w, steps[..|steps| - 1]), steps[|steps| - 1])
  }

  /** Shared credits are turned off, and everything about that has arrived. */
  predicate TurnedOff(w: Way) {
    Quiet(w) && Idle(w) && !w.race.m.allowed && w.race.m.usage == Inhibited
  }

  lemma StaysOff(w: Way, step: Step)
    requires TurnedOff(w) && step != Access(SwapAllowed(true))
    ensures TurnedOff(Next(w, step)) && Next(w, step).race.log == w.race.log && Next(w, step).arrived == w.arrived
  {
    if step.Access? {
      var r := Take(w.race, step.a);
      assert r.log == w.race.log && !r.m.allowed && r.m.usage == Inhibited;
      assert r.app.AppIdle? || r.app.TookPort? || r.app.TookBoth?;
      hide Take;
    }
  }

  /** Nothing corrects a peer that goes by the wrong request before the application turns shared credits on again. */
  lemma {:induction false} NothingCorrects(w: Way, steps: seq<Step>)
    requires TurnedOff(w) && Access(SwapAllowed(true)) !in steps
    ensures var w' := Continue(w, steps); TurnedOff(w') && (PeerUses(w') <==> PeerUses(w)) && w'.race.log == w.race.log
    ensures Continue(w, steps).arrived == w.arrived
  {
    if steps != [] {
      NothingCorrects(w, steps[..|steps| - 1]);
      StaysOff(Continue(w, steps[..|steps| - 1]), steps[|steps| - 1]);
      hide TurnedOff, Next;
    }
  }

  // The multiplexer's request to stop overtakes the owner's request to resume.

  /** Data has arrived up to the throttle, the multiplexer has asked to stop, and the data was consumed. */
  lemma StoppedAndConsumed(limit: u32, throttle: u32) returns (steps: seq<Step>)
    requires 1 <= throttle <= limit
    ensures Run(limit, throttle, steps)
            == Way(Race(NewMonitor(limit, throttle), [false, true], MuxIdle, AppIdle), None, [], [1], [0], [])
  {
    steps := [];
    var w0 := Run(limit, throttle, steps);
    assert w0 == Way(Race(NewMonitor(limit, throttle), [], MuxIdle, AppIdle), None, [], [], [], []);
    hide Run, Next;
    steps := Then(limit, throttle, steps, Access(UsePort(Split(throttle, 0))));
    steps := Then(limit, throttle, steps, Access(UseGlobalPart));
    steps := Then(limit, throttle, steps, Access(UseDecide));
    steps := Then(limit, throttle, steps, Access(MarkInhibited));
    Stops(w0, limit, throttle, []);
    var w1 := Full(w0, limit, throttle, [false], [0]);
    assert [] + [false] == [false] && [] + [0 as nat] == [0];
    steps := Then(limit, throttle, steps, Access(ReleasePort(Split(throttle, 0))));
    steps := Then(limit, throttle, steps, Access(ReleaseGlobal));
    steps := Then(limit, throttle, steps, Access(ReleaseCheck));
    steps := Then(limit, throttle, steps, Access(SwapActive));
    steps := Then(limit, throttle, steps, Queue(true));
    Resumes(w1, limit, throttle, [false]);
    assert [false] + [true] == [false, true] && [] + [1 as nat] == [1];
  }

  /** The port's whole throttle is in use, and the peer has been asked to stop. */
  function Full(w: Way, limit: u32, throttle: u32, log: seq<bool>, wire: seq<nat>): Way {
    w.(race := Race(NewMonitor(limit, throttle).(portUsed := throttle, usage := Inhibited), log, MuxIdle, AppIdle),
      wire := wire)
  }

  lemma Stops(w: Way, limit: u32, throttle: u32, log: seq<bool>)
    requires 1 <= throttle <= limit && w.race == Race(NewMonitor(limit, throttle), log, MuxIdle, AppIdle)
    ensures Next(Next(Next(Next(w, Access(UsePort(Split(throttle, 0)))), Access(UseGlobalPart)), Access(UseDecide)),
            Access(MarkInhibited))
         == Full(w, limit, throttle, log + [false], w.wire + [|log|])
  {
    var m := NewMonitor(limit, throttle).(portUsed := throttle);
    var w1 := w.(race := Race(m, log, AddedPort(throttle, 0), AppIdle));
    assert Next(w, Access(UsePort(Split(throttle, 0)))) == w1;
    var w2 := w.(race := Race(m, log, AddedBoth(throttle), AppIdle));
    assert Next(w1, Access(UseGlobalPart)) == w2;
    var w3 := w.(race := Race(m.(usage := Inhibiting), log, MuxIdle, AppIdle));
    assert Next(w2, Access(UseDecide)) == w3;
  }

  lemma Resumes(w: Way, limit: u32, throttle: u32, log: seq<bool>)
    requires 1 <= throttle <= limit && w == Full(w, limit, throttle, log, w.wire) && w.hand.None? && w.parked == []
    ensures var w' := Next(Next(Next(w, Access(ReleasePort(Split(throttle, 0)))), Access(ReleaseGlobal)),
            Access(ReleaseCheck));
            Next(Next(w', Access(SwapActive)), Queue(true))
            == w.(race := Race(NewMonitor(limit, throttle), log + [true], MuxIdle, AppIdle),
              channel := w.channel + [|log|])
  {
    var m := NewMonitor(limit, throttle).(usage := Inhibited);
    var w1 := w.(race := Race(m, log, MuxIdle, TookPort(0, 0)));
    assert Next(w, Access(ReleasePort(Split(throttle, 0)))) == w1;
    var w2 := w.(race := Race(m, log, MuxIdle, TookBoth(0)));
    assert Next(w1, Access(ReleaseGlobal)) == w2;
    var w3 := w.(race := Race(m, log, MuxIdle, Reactivating));
    assert Next(w2, Access(ReleaseCheck)) == w3;
    var w4 := w.(race := Race(m.(usage := Active), log + [true], MuxIdle, AppIdle), hand := Some(|log|));
    assert Next(w3, Access(SwapActive)) == w4;
  }

  lemma LastThree(w: Way)
    requires w.hand.None? && w.parked == [] && w.channel == [1] && w.wire == [0, 2] && w.arrived == []
    ensures Next(Next(Next(Next(w, Forward), Deliver), Deliver), Deliver)
            == w.(channel := [], wire := [], arrived := [0, 2, 1])
  {
    assert [1 as nat][1..] == [] && [0 as nat, 2] + [1] == [0, 2, 1];
    assert [0 as nat, 2, 1][1..] == [2, 1] && [2 as nat, 1][1..] == [1];
    assert [] + [0 as nat] == [0] && [0 as nat] + [2] == [0, 2];
  }

  /** The peer goes by a request to resume although the port is at its throttle and inhibited. */
  predicate Misled(w: Way, throttle: u32) {
    && Quiet(w) && Idle(w) && w.race.m.usage == Inhibited && InUse(w.race.m) >= throttle
    && w.race.log == OFF_ON_OFF && w.arrived == [0, 2, 1] && PeerUses(w)
  }

  lemma FullMisled(limit: u32, throttle: u32)
    ensures var w := Way(Race(NewMonitor(limit, throttle), [], MuxIdle, AppIdle), None, [], [], [], [0, 2, 1]);
            Misled(Full(w, limit, throttle, OFF_ON_OFF, []), throttle)
  {
  }

  /**
   The request to resume waits in the channel when the port fills up again and the multiplexer
   asks to stop: that one arrives first, and the peer goes on using shared credits.
   */
  lemma StopOvertakesResume(limit: u32, throttle: u32) returns (steps: seq<Step>)
    requires 1 <= throttle <= limit
    ensures Misled(Run(limit, throttle, steps), throttle)
  {
    steps := StoppedAndConsumed(limit, throttle);
    var w := Run(limit, throttle, steps);
    Stops(w, limit, throttle, [false, true]);
    assert [false, true] + [false] == OFF_ON_OFF && [0 as nat] + [2] == [0, 2];
    LastThree(Full(w, limit, throttle, OFF_ON_OFF, [0, 2]));
    FullMisled(limit, throttle);
    hide Run, Next, Misled;
    steps := Then(limit, throttle, steps, Access(UsePort(Split(throttle, 0))));
    steps := Then(limit, throttle, steps, Access(UseGlobalPart));
    steps := Then(limit, throttle, steps, Access(UseDecide));
    steps := Then(limit, throttle, steps, Access(MarkInhibited));
    steps := Then(limit, throttle, steps, Forward);
    steps := Then(limit, throttle, steps, Deliver);
    steps := Then(limit, throttle, steps, Deliver);
    steps := Then(limit, throttle, steps, Deliver);
  }
}
