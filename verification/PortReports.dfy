/**
 The future returned by `all_received` keeps its own way into the event queue, so it can ask
 for a report after the sender it came from has reported its drop. Such a late request changes
 nothing until it is handled, and then ends the connection exactly if no port is connected
 under its number any more.
 */
module PortReports {
  import opened Types
  import opened PortMux
  import opened PortChannel
  import opened PortSystem
  import opened PortInvariant
  import opened PortOpening
  import opened PortTheorems
  import opened PortExamples

  predicate CanBeLate(s: System, e: Node, c: ChanId) {
    !s.failed && HasHandles(s, e, c) && Ep(s, e).handles[c].sender == DropQueued
  }

  /** The future is polled for the first time although the drop of its sender is already queued. */
  function LateReport(s: System, e: Node, c: ChanId): System {
    if CanBeLate(s, e, c) then With(s, e, AddEvent(Ep(s, e), RequestReport(KeyOf(s.chans, e, c).value, c))) else s
  }

  function Continue(s: System, steps: seq<Step>): System {
    if steps == [] then s else Next(Continue(s, steps[..|steps| - 1]), steps[|steps| - 1])
  }

  /** How many events of e the steps handle. */
  function Handlings(steps: seq<Step>, e: Node): nat {
    if steps == [] then 0
    else Handlings(steps[..|steps| - 1], e) + if steps[|steps| - 1] == HandleNext(e) then 1 else 0
  }

  /** The event queue of e with one more event behind the first i. */
  function Inserted(s: System, e: Node, i: nat, evt: PortEvt): System
    requires i <= |Ep(s, e).events|
  {
    With(s, e, Ep(s, e).(events := Ep(s, e).events[..i] + [evt] + Ep(s, e).events[i..]))
  }

  /** A waiting event that is not yet at the head has no influence on a step. */
  ghost predicate Unnoticed(s: System, e: Node, i: nat, evt: PortEvt, step: Step) {
    var i' := if step == HandleNext(e) && i > 0 then i - 1 else i;
    && i <= |Ep(s, e).events|
    && i' <= |Ep(Next(s, step), e).events|
    && Next(Inserted(s, e, i, evt), step) == Inserted(Next(s, step), e, i', evt)
  }

  lemma MoreEvents(q: seq<PortEvt>, i: nat, evt: PortEvt, x: PortEvt)
    requires i <= |q|
    ensures q[..i] + [evt] + q[i..] + [x] == (q + [x])[..i] + [evt] + (q + [x])[i..]
  {
  }

  lemma NumberAround(s: System, e: Node, i: nat, evt: PortEvt, step: Step)
    requires i <= |Ep(s, e).events| && !Next(s, step).failed
    requires step.Allocate? || step.Release?
    ensures Unnoticed(s, e, i, evt, step)
  {
    hide DoHandleNext, DoHandleHigh, DoDeliver, DoSend, DoClose, DoConnect, DoAccept, DoQueueReject,
      DoQueueSenderDropped, DoQueueReceiverDropped, SetHandles, HasHandles, KeyOf, NoteEvent, Transmitted;
  }

  lemma OpenAround(s: System, e: Node, i: nat, evt: PortEvt, step: Step)
    requires i <= |Ep(s, e).events| && !Next(s, step).failed
    requires step.Connect? || step.Accept?
    ensures Unnoticed(s, e, i, evt, step)
  {
    hide DoHandleNext, DoHandleHigh, DoDeliver, DoSend, DoClose, DoQueueReject, HandleEvent, FreshKey, Reserve,
      DoQueueSenderDropped, DoQueueReceiverDropped, SetHandles, HasHandles, KeyOf, NoteEvent, Transmitted;
  }

  lemma RequestAround(s: System, e: Node, i: nat, evt: PortEvt, step: Step)
    requires i <= |Ep(s, e).events| && !Next(s, step).failed
    requires step.DropRequest? || step.QueueReject? || step.Transmit?
    ensures Unnoticed(s, e, i, evt, step)
  {
    hide DoHandleNext, DoHandleHigh, DoDeliver, DoSend, DoClose, DoConnect, DoAccept,
      DoQueueSenderDropped, DoQueueReceiverDropped, SetHandles, HasHandles, KeyOf, NoteEvent, Transmitted;
  }

  lemma DropSenderAround(s: System, e: Node, i: nat, evt: PortEvt, step: Step)
    requires i <= |Ep(s, e).events| && !Next(s, step).failed
    requires step.DropSender?
    ensures Unnoticed(s, e, i, evt, step)
  {
    hide DoHandleNext, DoHandleHigh, DoDeliver, DoSend, DoClose, DoConnect, DoAccept, DoQueueReject,
      DoQueueSenderDropped, DoQueueReceiverDropped, KeyOf, NoteEvent, Transmitted;
  }

  lemma DropReceiverAround(s: System, e: Node, i: nat, evt: PortEvt, step: Step)
    requires i <= |Ep(s, e).events| && !Next(s, step).failed
    requires step.DropReceiver?
    ensures Unnoticed(s, e, i, evt, step)
  {
    hide DoHandleNext, DoHandleHigh, DoDeliver, DoSend, DoClose, DoConnect, DoAccept, DoQueueReject,
      DoQueueSenderDropped, DoQueueReceiverDropped, KeyOf, NoteEvent, Transmitted;
  }

  lemma NoteAround(s: System, e: Node, i: nat, evt: PortEvt, step: Step)
    requires i <= |Ep(s, e).events| && !Next(s, step).failed
    requires step.QueueNote?
    ensures Unnoticed(s, e, i, evt, step)
  {
    hide DoHandleNext, DoHandleHigh, DoDeliver, DoSend, DoClose, DoConnect, DoAccept, DoQueueReject,
      DoQueueSenderDropped, DoQueueReceiverDropped, SetHandles, KeyOf, NoteEvent, Transmitted;
  }

  lemma SendAround(s: System, e: Node, i: nat, evt: PortEvt, step: Step)
    requires i <= |Ep(s, e).events| && !Next(s, step).failed
    requires step.Send?
    ensures Unnoticed(s, e, i, evt, step)
  {
    hide DoHandleNext, DoHandleHigh, DoDeliver, DoConnect, DoAccept, DoQueueReject, SetHandles, PayloadEvent, KeyOf,
      MaySend, Transmitted, NoteEvent, DoClose, DoQueueSenderDropped, DoQueueReceiverDropped;
    forall x
      ensures var q := Ep(s, e).events; q[..i] + [evt] + q[i..] + [x] == (q + [x])[..i] + [evt] + (q + [x])[i..]
    {
      MoreEvents(Ep(s, e).events, i, evt, x);
    }
  }

  lemma CloseAround(s: System, e: Node, i: nat, evt: PortEvt, step: Step)
    requires i <= |Ep(s, e).events| && !Next(s, step).failed
    requires step.CloseReceiver?
    ensures Unnoticed(s, e, i, evt, step)
  {
    hide DoHandleNext, DoHandleHigh, DoDeliver, DoConnect, DoAccept, DoQueueReject, SetHandles, PayloadEvent, KeyOf,
      MaySend, Transmitted, NoteEvent, DoSend, DoQueueSenderDropped, DoQueueReceiverDropped;
    forall x
      ensures var q := Ep(s, e).events; q[..i] + [evt] + q[i..] + [x] == (q + [x])[..i] + [evt] + (q + [x])[i..]
    {
      MoreEvents(Ep(s, e).events, i, evt, x);
    }
  }

  lemma SenderDroppedAround(s: System, e: Node, i: nat, evt: PortEvt, step: Step)
    requires i <= |Ep(s, e).events| && !Next(s, step).failed
    requires step.QueueSenderDropped?
    ensures Unnoticed(s, e, i, evt, step)
  {
    hide DoHandleNext, DoHandleHigh, DoDeliver, DoConnect, DoAccept, DoQueueReject, SetHandles, PayloadEvent, KeyOf,
      MaySend, Transmitted, NoteEvent, DoSend, DoClose, DoQueueReceiverDropped;
    forall x
      ensures var q := Ep(s, e).events; q[..i] + [evt] + q[i..] + [x] == (q + [x])[..i] + [evt] + (q + [x])[i..]
    {
      MoreEvents(Ep(s, e).events, i, evt, x);
    }
  }

  lemma ReceiverDroppedAround(s: System, e: Node, i: nat, evt: PortEvt, step: Step)
    requires i <= |Ep(s, e).events| && !Next(s, step).failed
    requires step.QueueReceiverDropped?
    ensures Unnoticed(s, e, i, evt, step)
  {
    hide DoHandleNext, DoHandleHigh, DoDeliver, DoConnect, DoAccept, DoQueueReject, SetHandles, PayloadEvent, KeyOf,
      MaySend, Transmitted, NoteEvent, DoSend, DoClose, DoQueueSenderDropped;
    forall x
      ensures var q := Ep(s, e).events; q[..i] + [evt] + q[i..] + [x] == (q + [x])[..i] + [evt] + (q + [x])[i..]
    {
      MoreEvents(Ep(s, e).events, i, evt, x);
    }
  }

  lemma NextHere(s: System, e: Node, i: nat, evt: PortEvt)
    requires 0 < i <= |Ep(s, e).events| && !Next(s, HandleNext(e)).failed
    ensures Unnoticed(s, e, i, evt, HandleNext(e))
  {
    hide DoSend, DoClose, DoConnect, DoAccept, DoQueueReject, SetHandles, HasHandles, HandleEvent, HandleReceived,
      DoQueueSenderDropped, DoQueueReceiverDropped, DoHandleHigh, DoDeliver;
    var q := Ep(s, e).events;
    assert (q[..i] + [evt] + q[i..])[1..] == q[1..][..i - 1] + [evt] + q[1..][i - 1..];
  }

  lemma NextThere(s: System, e: Node, i: nat, evt: PortEvt)
    requires i <= |Ep(s, e).events| && !Next(s, HandleNext(Peer(e))).failed
    ensures Unnoticed(s, e, i, evt, HandleNext(Peer(e)))
  {
    hide DoSend, DoClose, DoConnect, DoAccept, DoQueueReject, SetHandles, HasHandles, HandleEvent, HandleReceived,
      DoQueueSenderDropped, DoQueueReceiverDropped, DoHandleHigh, DoDeliver;
  }

  lemma NextAround(s: System, e: Node, i: nat, evt: PortEvt, step: Step)
    requires i <= |Ep(s, e).events| && !Next(s, step).failed
    requires step.HandleNext?
    requires step == HandleNext(e) ==> i > 0
    ensures Unnoticed(s, e, i, evt, step)
  {
    hide Unnoticed, Next;
    if step == HandleNext(e) {
      NextHere(s, e, i, evt);
    } else {
      NextThere(s, e, i, evt);
    }
  }

  lemma HighAround(s: System, e: Node, i: nat, evt: PortEvt, step: Step)
    requires i <= |Ep(s, e).events| && !Next(s, step).failed
    requires step.HandleHigh?
    ensures Unnoticed(s, e, i, evt, step)
  {
    hide DoSend, DoClose, DoConnect, DoAccept, DoQueueReject, SetHandles, HasHandles, HandleEvent, HandleReceived,
      DoQueueSenderDropped, DoQueueReceiverDropped, DoHandleNext, DoDeliver;
  }

  lemma DeliverAround(s: System, e: Node, i: nat, evt: PortEvt, step: Step)
    requires i <= |Ep(s, e).events| && !Next(s, step).failed
    requires step.Deliver?
    ensures Unnoticed(s, e, i, evt, step)
  {
    hide DoSend, DoClose, DoConnect, DoAccept, DoQueueReject, SetHandles, HasHandles, HandleEvent, HandleReceived,
      DoQueueSenderDropped, DoQueueReceiverDropped, DoHandleNext, DoHandleHigh;
  }

  lemma StepAround(s: System, e: Node, i: nat, evt: PortEvt, step: Step)
    requires i <= |Ep(s, e).events| && !Next(s, step).failed
    requires step == HandleNext(e) ==> i > 0
    ensures Unnoticed(s, e, i, evt, step)
  {
    hide Unnoticed, Next;
    match step {
      case Allocate(_, _) => NumberAround(s, e, i, evt, step);
      case Release(_, _) => NumberAround(s, e, i, evt, step);
      case Connect(_, _) => OpenAround(s, e, i, evt, step);
      case Accept(_, _, _) => OpenAround(s, e, i, evt, step);
      case DropRequest(_, _) => RequestAround(s, e, i, evt, step);
      case QueueReject(_, _, _) => RequestAround(s, e, i, evt, step);
      case Transmit(_) => RequestAround(s, e, i, evt, step);
      case DropSender(_, _) => DropSenderAround(s, e, i, evt, step);
      case DropReceiver(_, _) => DropReceiverAround(s, e, i, evt, step);
      case QueueNote(_, _, _) => NoteAround(s, e, i, evt, step);
      case Send(_, _, _) => SendAround(s, e, i, evt, step);
      case CloseReceiver(_, _) => CloseAround(s, e, i, evt, step);
      case QueueSenderDropped(_, _) => SenderDroppedAround(s, e, i, evt, step);
      case QueueReceiverDropped(_, _) => ReceiverDroppedAround(s, e, i, evt, step);
      case HandleNext(_) => NextAround(s, e, i, evt, step);
      case HandleHigh(_) => HighAround(s, e, i, evt, step);
      case Deliver(_) => DeliverAround(s, e, i, evt, step);
    }
  }

  /** While it waits, a late request leaves the run as it would have been without it. */
  lemma {:induction false} Waits(before: seq<Step>, e: Node, c: ChanId, during: seq<Step>)
    requires CanBeLate(Run(before), e, c)
    requires Handlings(during, e) <= |Ep(Run(before), e).events|
    ensures var i, s := |Ep(Run(before), e).events| - Handlings(during, e), Run(before + during);
            && i <= |Ep(s, e).events|
            && Continue(LateReport(Run(before), e, c), during)
               == Inserted(s, e, i, RequestReport(KeyOf(Run(before).chans, e, c).value, c))
  {
    hide Run, Next, KeyOf;
    var s0 := Run(before);
    var q := Ep(s0, e).events;
    var evt := RequestReport(KeyOf(s0.chans, e, c).value, c);
    if during == [] {
      assert before + during == before;
      assert q[..|q|] + [evt] + q[|q|..] == q + [evt];
    } else {
      var earlier, step := during[..|during| - 1], during[|during| - 1];
      Waits(before, e, c, earlier);
      OneMore(before, during);
      NextOf(before + earlier, step);
      StepAround(Run(before + earlier), e, |q| - Handlings(earlier, e), evt, step);
    }
  }

  lemma OneMore(before: seq<Step>, during: seq<Step>)
    requires during != []
    ensures Run(before + during) == Next(Run(before + during[..|during| - 1]), during[|during| - 1])
  {
    hide Next;
    assert (before + during)[..|before + during| - 1] == before + during[..|during| - 1];
  }

  /**
   A late request fails nothing while it waits. When its turn has come it ends the connection
   exactly if no port is connected under the number its channel had; otherwise the table stays
   as it is and the request goes to the peer of whichever port is connected there by then.
   */
  lemma LateReportExactly(before: seq<Step>, e: Node, c: ChanId, during: seq<Step>)
    requires CanBeLate(Run(before), e, c)
    requires Handlings(during, e) == |Ep(Run(before), e).events|
    ensures !Continue(LateReport(Run(before), e, c), during).failed
    ensures var s, k := Run(before + during), KeyOf(Run(before).chans, e, c).value;
            var s' := Continue(LateReport(Run(before), e, c), during + [HandleNext(e)]);
            && (s'.failed <==> !IsConnected(Ep(s, e).mux, k))
            && (!s'.failed ==> s' == With(s, e, Ep(s, e).(out := Ep(s, e).out.(normal := Ep(s, e).out.normal
                                 + [RequestReceivedReport(Ep(s, e).mux.ports[k].remotePort, c)]))))
  {
    hide Run, Next, KeyOf;
    Waits(before, e, c, during);
    NeverFails(before + during);
    var s := Run(before + during);
    var k := KeyOf(Run(before).chans, e, c).value;
    assert (during + [HandleNext(e)])[..|during|] == during;
    HandledAtHead(s, e, k, c);
  }

  lemma HandledAtHead(s: System, e: Node, k: SidePort, c: ChanId)
    requires !s.failed
    ensures var s' := Next(Inserted(s, e, 0, RequestReport(k, c)), HandleNext(e));
            && (s'.failed <==> !IsConnected(Ep(s, e).mux, k))
            && (!s'.failed ==> s' == With(s, e, Ep(s, e).(out := Ep(s, e).out.(normal := Ep(s, e).out.normal
                                 + [RequestReceivedReport(Ep(s, e).mux.ports[k].remotePort, c)]))))
  {
    hide DoSend, DoClose, DoConnect, DoAccept, DoQueueReject, SetHandles, HasHandles, HandleReceived, DoHandleHigh,
      DoDeliver, DoQueueSenderDropped, DoQueueReceiverDropped;
    var q := Ep(s, e).events;
    assert (q[..0] + [RequestReport(k, c)] + q[0..])[1..] == q;
  }

  // ---------------------------------------------------------------------------
  // Two runs
  // ---------------------------------------------------------------------------

  /** After the channel has closed at both ends, the future of a former sender ends the connection. */
  lemma LateReportPanics() returns (steps: seq<Step>)
    ensures !Run(steps).failed && CanBeLate(Run(steps), A, 0)
    ensures Continue(LateReport(Run(steps), A, 0), [HandleNext(A)]).failed
  {
    steps := ChannelCloses();
    hide Run, Next, LateReport;
    assert [] + [HandleNext(A)] == [HandleNext(A)] && steps + [] == steps;
    LateReportExactly(steps, A, 0, []);
  }

  /** A's sender is gone, everything else is still in place. */
  const HALF := PortExamples.Put(OPEN, A, SenderGone(OPEN.a, A))

  lemma SenderIsGone() returns (steps: seq<Step>)
    ensures Run(steps) == Joined(HALF)
  {
    steps := ChannelOpens();
    hide Run, Next, Joined;
    steps := Then(steps, DropSender(A, 0));
    steps := Then(steps, QueueSenderDropped(A, 0));
    steps := Then(steps, HandleNext(A));
    steps := Then(steps, Transmit(A));
    SenderLeaves(OPEN, A);
  }

  const REPORT := RequestReceivedReport(Local(1), 0)

  /** The request is on the wire, behind the end of the data. */
  const SENT := Ends(HALF.a.(wire := HALF.a.wire + [REPORT]), HALF.b)

  /** B has read the end of the data. */
  const ENDED := Ends(HALF.a.(wire := [REPORT]), HALF.b.(port := Some(FreshPort(0, Remote(1)).(receiverOpen := false))))

  lemma HalfCanBeLate()
    ensures CanBeLate(Joined(HALF), A, 0) && Ep(Joined(HALF), A).events == []
    ensures KeyOf(Joined(HALF).chans, A, 0) == Some(Local(1))
    ensures IsConnected(Ep(Joined(HALF), A).mux, Local(1))
    ensures Ep(Joined(HALF), A).mux.ports[Local(1)].remotePort == Local(1)
    ensures Ep(Joined(HALF), A).out == Out(HALF.a.wire, [], []) && [] + [REPORT] == [REPORT]
  {
  }

  lemma Sends()
    ensures Next(With(Joined(HALF), A, Ep(Joined(HALF), A).(out := Out(HALF.a.wire, [], [REPORT]))), Transmit(A))
            == Joined(SENT)
  {
    hide Next;
    SendsOne(Joined(HALF), A, HALF.a.wire, REPORT);
  }

  lemma DataEnds()
    ensures Next(Joined(SENT), Deliver(B)) == Joined(ENDED)
  {
    hide Next, Joined;
    assert SENT.a.wire == [SendFinish(Local(1), 0), REPORT] && SENT.a.wire[1..] == [REPORT];
    FirstNotice(SENT, B);
  }

  /** The request finds B's receiver closed. */
  lemma Refuses()
    ensures !Joined(ENDED).failed && Next(Joined(ENDED), Deliver(B)).failed
  {
  }

  /** While the port is still connected the request is sent behind the end of the data, and the peer refuses it. */
  lemma LateReportRefused() returns (steps: seq<Step>, during: seq<Step>)
    ensures CanBeLate(Run(steps), A, 0)
    ensures !Continue(LateReport(Run(steps), A, 0), during).failed
    ensures Continue(LateReport(Run(steps), A, 0), during + [Deliver(B)]).failed
  {
    steps := SenderIsGone();
    var s := LateReport(Run(steps), A, 0);
    HalfCanBeLate();
    LateReportExactly(steps, A, 0, []);
    Sends();
    DataEnds();
    Refuses();
    hide *;
    assert [] + [HandleNext(A)] == [HandleNext(A)] && steps + [] == steps;
    during := [HandleNext(A), Transmit(A), Deliver(B)];
    Three(s, HandleNext(A), Transmit(A), Deliver(B));
    OneStep(s, during, Deliver(B));
  }

  lemma OneStep(s: System, during: seq<Step>, step: Step)
    ensures Continue(s, during + [step]) == Next(Continue(s, during), step)
  {
    assert (during + [step])[..|during|] == during;
  }

  lemma Three(s: System, x: Step, y: Step, z: Step)
    ensures Continue(s, [x, y, z]) == Next(Next(Next(s, x), y), z)
    ensures Continue(s, [x]) == Next(s, x)
  {
    hide Next;
    OneStep(s, [x, y], z);
    OneStep(s, [x], y);
    OneStep(s, [], x);
    assert [x, y] + [z] == [x, y, z] && [x] + [y] == [x, y] && [] + [x] == [x];
  }
}
