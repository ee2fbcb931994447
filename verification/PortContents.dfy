/**
 What the two ends of a channel say to each other. An application and its receiver queue data,
 notices and endings; what the peer is given is, in order, exactly what was queued, on the
 normal and on the high-priority way each. Everything is stated by what the steps of a run
 queue and by what the delivered messages say.
 */
module PortContents {
  import opened Types
  import opened PortMux
  import opened PortChannel
  import opened PortSystem
  import opened PortInvariant
  import opened PortBooks
  import opened PortOpening

  /** What one side of a channel can say to the other. */
  datatype Content =
    | Asks
    | Accepts
    | Refuses(noPorts: bool)
    | Sends(payload: Payload)
    | SenderEnds
    | ReceiverCloses
    | ReceiverEnds
    | Notes(note: NoteKind)

  /** What a message says, and which of the two ways it takes. */
  function Said(m: Msg): Content {
    match m
    case OpenPort(_, _) => Asks
    case PortOpened(_, _, _) => Accepts
    case Rejected(_, noPorts, _) => Refuses(noPorts)
    case Data(_, _) => Sends(Bytes)
    case PortData(_, _) => Sends(Ports)
    case RequestReceivedReport(_, _) => Sends(Report)
    case ReceivedReport(_, _) => Notes(ReportNote)
    case PortCredits(_, credits, _) => Notes(CreditNote(credits))
    case InhibitGlobalCreditUsageByPort(_, _) => Notes(UsageNote(false))
    case AllowGlobalCreditUsageByPort(_, _) => Notes(UsageNote(true))
    case SendFinish(_, _) => SenderEnds
    case ReceiveClose(_, _) => ReceiverCloses
    case ReceiveFinish(_, _) => ReceiverEnds
  }

  predicate Urgent(c: Content) {
    c.Accepts? || c.Refuses? || c.Notes?
  }

  /** The reference for an event that waits: what it will say. */
  function Meant(e: PortEvt): Content {
    match e
    case ConnectReq(_, _) => Asks
    case SendData(_, _) => Sends(Bytes)
    case SendPorts(_, _) => Sends(Ports)
    case RequestReport(_, _) => Sends(Report)
    case SenderDropped(_, _) => SenderEnds
    case ReceiverClosed(_, _) => ReceiverCloses
    case ReceiverDropped(_, _) => ReceiverEnds
    case AcceptedReq(_, _, _) => Accepts
    case RejectedReq(_, noPorts, _) => Refuses(noPorts)
    case SendReport(_, _) => Notes(ReportNote)
    case ReturnCredits(_, credits, _) => Notes(CreditNote(credits))
    case ChangeGlobalCreditUsage(_, allow, _) => Notes(UsageNote(allow))
  }

  // ---------------------------------------------------------------------------
  // What steps queue and deliver
  // ---------------------------------------------------------------------------

  /** Whether an application or the multiplexer can do what the step says. */
  predicate Possible(s: System, step: Step) {
    !s.failed && !Next(s, step).failed
    && match step
       case Connect(e, n) => n in Ep(s, e).held
       case Accept(e, c, key) =>
         && c < |s.chans| && c in Ep(s, e).requests && Ep(s, e).requests[c] == Waiting
         && FreshKey(Ep(s, e).mux, s.chans[c].num, key)
       case QueueReject(e, c, _) => c < |s.chans| && c in Ep(s, e).requests && Ep(s, e).requests[c] == RejectSpawned
       case Send(e, c, payload) => HasHandles(s, e, c) && MaySend(Ep(s, e).handles[c], payload)
       case QueueSenderDropped(e, c) => HasHandles(s, e, c) && Ep(s, e).handles[c].sender == DropSpawned
       case CloseReceiver(e, c) =>
         HasHandles(s, e, c) && Ep(s, e).handles[c].receiver == Live && !Ep(s, e).handles[c].closed
       case QueueReceiverDropped(e, c) => HasHandles(s, e, c) && Ep(s, e).handles[c].receiver == DropSpawned
       case QueueNote(e, c, _) => HasHandles(s, e, c)
       case _ => true
  }

  /** What a possible step makes endpoint e say on channel c, and on which way. */
  function Queues(s: System, step: Step, e: Node, c: ChanId, urgent: bool): seq<Content> {
    if !Possible(s, step) then []
    else
      match step
      case Connect(e', n) => if e' == e && c == |s.chans| && !urgent then [Asks] else []
      case Accept(e', c', _) => if e' == e && c' == c && urgent then [Accepts] else []
      case QueueReject(e', c', noPorts) => if e' == e && c' == c && urgent then [Refuses(noPorts)] else []
      case Send(e', c', payload) => if e' == e && c' == c && !urgent then [Sends(payload)] else []
      case QueueSenderDropped(e', c') => if e' == e && c' == c && !urgent then [SenderEnds] else []
      case CloseReceiver(e', c') => if e' == e && c' == c && !urgent then [ReceiverCloses] else []
      case QueueReceiverDropped(e', c') => if e' == e && c' == c && !urgent then [ReceiverEnds] else []
      case QueueNote(e', c', note) => if e' == e && c' == c && urgent then [Notes(note)] else []
      case _ => []
  }

  /** What the peer of e is given by a step on channel c. */
  function Gives(s: System, step: Step, e: Node, c: ChanId, urgent: bool): seq<Content> {
    if step == Deliver(Peer(e)) && Ep(s, e).out.wire != []
    then Words(Ep(s, e).out.wire[..1], c, urgent) else []
  }

  function Queued(steps: seq<Step>, e: Node, c: ChanId, urgent: bool): seq<Content> {
    if steps == [] then []
    else
      Queued(steps[..|steps| - 1], e, c, urgent)
      + Queues(Run(steps[..|steps| - 1]), steps[|steps| - 1], e, c, urgent)
  }

  function Given(steps: seq<Step>, e: Node, c: ChanId, urgent: bool): seq<Content> {
    if steps == [] then []
    else
      Given(steps[..|steps| - 1], e, c, urgent)
      + Gives(Run(steps[..|steps| - 1]), steps[|steps| - 1], e, c, urgent)
  }

  // ---------------------------------------------------------------------------
  // What is under way
  // ---------------------------------------------------------------------------

  function Words(q: seq<Msg>, c: ChanId, urgent: bool): seq<Content> {
    if q == [] then []
    else (if q[0].chan == c && Urgent(Said(q[0])) == urgent then [Said(q[0])] else []) + Words(q[1..], c, urgent)
  }

  function Thoughts(q: seq<PortEvt>, c: ChanId, urgent: bool): seq<Content> {
    if q == [] then []
    else (if q[0].chan == c && Urgent(Meant(q[0])) == urgent then [Meant(q[0])] else []) + Thoughts(q[1..], c, urgent)
  }

  function NormalWay(ep: Endpoint, c: ChanId): seq<Content> {
    Words(ep.out.wire, c, false) + Words(ep.out.normal, c, false) + Thoughts(ep.events, c, false)
  }

  function UrgentWay(ep: Endpoint, c: ChanId): seq<Content> {
    Words(ep.out.Ordered(), c, true) + Thoughts(ep.highEvents, c, true)
  }

  function UnderWay(ep: Endpoint, c: ChanId, urgent: bool): seq<Content> {
    if urgent then UrgentWay(ep, c) else NormalWay(ep, c)
  }

  /** Each queue holds what belongs to its way. */
  predicate Sorted(ep: Endpoint) {
    && (forall i | 0 <= i < |ep.events| :: !Urgent(Meant(ep.events[i])))
    && (forall i | 0 <= i < |ep.highEvents| :: Urgent(Meant(ep.highEvents[i])))
    && (forall i | 0 <= i < |ep.out.normal| :: !Urgent(Said(ep.out.normal[i])))
    && (forall i | 0 <= i < |ep.out.high| :: Urgent(Said(ep.out.high[i])))
  }

  lemma {:induction false} WordsConcat(p: seq<Msg>, q: seq<Msg>, c: ChanId, urgent: bool)
    ensures Words(p + q, c, urgent) == Words(p, c, urgent) + Words(q, c, urgent)
  {
    if p == [] {
      assert p + q == q;
    } else {
      assert (p + q)[1..] == p[1..] + q && (p + q)[0] == p[0];
      WordsConcat(p[1..], q, c, urgent);
      hide Said, Urgent;
    }
  }

  lemma {:induction false} ThoughtsConcat(p: seq<PortEvt>, q: seq<PortEvt>, c: ChanId, urgent: bool)
    ensures Thoughts(p + q, c, urgent) == Thoughts(p, c, urgent) + Thoughts(q, c, urgent)
  {
    if p == [] {
      assert p + q == q;
    } else {
      assert (p + q)[1..] == p[1..] + q && (p + q)[0] == p[0];
      ThoughtsConcat(p[1..], q, c, urgent);
      hide Meant, Urgent;
    }
  }

  lemma {:induction false} WordsNone(q: seq<Msg>, c: ChanId, urgent: bool)
    requires forall i | 0 <= i < |q| :: Urgent(Said(q[i])) != urgent
    ensures Words(q, c, urgent) == []
  {
    if q != [] {
      WordsNone(q[1..], c, urgent);
    }
  }

  /** An event becomes a message that says what the event meant, on the same channel. */
  lemma EventBecomes(m: Mux, evt: PortEvt)
    ensures var r := HandleEvent(m, evt); r.Sent? ==> Said(r.msg) == Meant(evt) && r.msg.chan == evt.chan
  {
  }

  // ---------------------------------------------------------------------------
  // Every step
  // ---------------------------------------------------------------------------

  predicate SameQueues(a: Endpoint, b: Endpoint) {
    a.events == b.events && a.highEvents == b.highEvents && a.out == b.out
  }

  function OnWay(x: Content, chan: ChanId, c: ChanId, urgent: bool): seq<Content> {
    if chan == c && Urgent(x) == urgent then [x] else []
  }

  lemma OneThought(evt: PortEvt, c: ChanId, urgent: bool)
    ensures Thoughts([evt], c, urgent) == OnWay(Meant(evt), evt.chan, c, urgent)
  {
    assert [evt][1..] == [];
    hide Meant, Urgent;
  }

  lemma OneWord(msg: Msg, c: ChanId, urgent: bool)
    ensures Words([msg], c, urgent) == OnWay(Said(msg), msg.chan, c, urgent)
  {
    assert [msg][1..] == [];
    hide Said, Urgent;
  }

  /** One more event at the end of its queue. */
  ghost predicate Added(a: Endpoint, b: Endpoint, evt: PortEvt) {
    && b.out == a.out
    && b.events == (if Urgent(Meant(evt)) then a.events else a.events + [evt])
    && b.highEvents == (if Urgent(Meant(evt)) then a.highEvents + [evt] else a.highEvents)
  }

  lemma AddedNormal(a: Endpoint, b: Endpoint, evt: PortEvt, c: ChanId)
    requires Added(a, b, evt)
    ensures NormalWay(b, c) == NormalWay(a, c) + OnWay(Meant(evt), evt.chan, c, false)
  {
    hide Meant, Words, Thoughts, Urgent;
    OneThought(evt, c, false);
    ThoughtsConcat(a.events, [evt], c, false);
  }

  lemma AddedUrgent(a: Endpoint, b: Endpoint, evt: PortEvt, c: ChanId)
    requires Added(a, b, evt)
    ensures UrgentWay(b, c) == UrgentWay(a, c) + OnWay(Meant(evt), evt.chan, c, true)
  {
    hide Meant, Words, Thoughts, Urgent;
    OneThought(evt, c, true);
    ThoughtsConcat(a.highEvents, [evt], c, true);
  }

  lemma AddedSorted(a: Endpoint, b: Endpoint, evt: PortEvt)
    requires Sorted(a) && Added(a, b, evt)
    ensures Sorted(b)
  {
    hide Meant, Said, Urgent;
  }

  /** The first event of its queue has become a message at the end of its way. */
  ghost predicate Handled(a: Endpoint, b: Endpoint, evt: PortEvt, msg: Msg) {
    && Said(msg) == Meant(evt) && msg.chan == evt.chan
    && a.events == (if Urgent(Meant(evt)) then b.events else [evt] + b.events)
    && a.highEvents == (if Urgent(Meant(evt)) then [evt] + b.highEvents else b.highEvents)
    && b.out == if Urgent(Meant(evt)) then a.out.(high := a.out.high + [msg])
                else a.out.(normal := a.out.normal + [msg])
  }

  lemma Reassociate<T>(a: seq<T>, b: seq<T>, x: seq<T>, t: seq<T>)
    ensures (a + (b + x)) + t == (a + b) + (x + t)
  {
  }

  lemma HandledNormal(a: Endpoint, b: Endpoint, evt: PortEvt, msg: Msg, c: ChanId)
    requires Handled(a, b, evt, msg)
    ensures NormalWay(b, c) == NormalWay(a, c)
  {
    hide Meant, Said, Words, Thoughts, Urgent;
    if !Urgent(Meant(evt)) {
      OneThought(evt, c, false);
      OneWord(msg, c, false);
      ThoughtsConcat([evt], b.events, c, false);
      WordsConcat(a.out.normal, [msg], c, false);
      hide OnWay;
      Reassociate(Words(a.out.wire, c, false), Words(a.out.normal, c, false),
                  Thoughts([evt], c, false), Thoughts(b.events, c, false));
    }
  }

  lemma HandledUrgent(a: Endpoint, b: Endpoint, evt: PortEvt, msg: Msg, c: ChanId)
    requires Handled(a, b, evt, msg)
    ensures UrgentWay(b, c) == UrgentWay(a, c)
  {
    hide Meant, Said, Words, Thoughts, Urgent;
    if Urgent(Meant(evt)) {
      OneThought(evt, c, true);
      OneWord(msg, c, true);
      ThoughtsConcat([evt], b.highEvents, c, true);
      assert b.out.Ordered() == a.out.Ordered() + [msg];
      WordsConcat(a.out.Ordered(), [msg], c, true);
      hide OnWay;
      Reassociate([], Words(a.out.Ordered(), c, true), Thoughts([evt], c, true), Thoughts(b.highEvents, c, true));
      assert [] + (Words(a.out.Ordered(), c, true) + Thoughts([evt], c, true)) == Words(b.out.Ordered(), c, true);
      assert [] + Words(a.out.Ordered(), c, true) == Words(a.out.Ordered(), c, true);
    }
  }

  lemma HandledSorted(a: Endpoint, b: Endpoint, evt: PortEvt, msg: Msg)
    requires Sorted(a) && Handled(a, b, evt, msg)
    ensures Sorted(b)
  {
    hide Meant, Said, Urgent;
    if Urgent(Meant(evt)) {
      assert forall i | 0 <= i < |b.highEvents| :: b.highEvents[i] == a.highEvents[i + 1];
    } else {
      assert forall i | 0 <= i < |b.events| :: b.events[i] == a.events[i + 1];
    }
  }

  /** A message goes on the wire. */
  lemma HighTransmitted(a: Endpoint, b: Endpoint, c: ChanId)
    requires Sorted(a) && a.out.high != [] && SameQueues(a.(out := Transmitted(a.out)), b)
    ensures NormalWay(b, c) == NormalWay(a, c) && UrgentWay(b, c) == UrgentWay(a, c)
  {
    hide Said, Meant, Urgent, Thoughts, Words;
    var o := a.out;
    assert b.out.Ordered() == o.Ordered();
    WordsConcat(o.wire, [o.high[0]], c, false);
    WordsNone([o.high[0]], c, false);
    hide Sorted;
    assert Words(o.wire, c, false) + [] == Words(o.wire, c, false);
  }

  lemma NormalTransmitted(a: Endpoint, b: Endpoint, c: ChanId)
    requires Sorted(a) && a.out.high == [] && a.out.normal != [] && SameQueues(a.(out := Transmitted(a.out)), b)
    ensures NormalWay(b, c) == NormalWay(a, c) && UrgentWay(b, c) == UrgentWay(a, c)
  {
    hide Said, Meant, Urgent, Thoughts, Words;
    var o := a.out;
    assert o.normal == [o.normal[0]] + o.normal[1..];
    WordsConcat(o.wire, [o.normal[0]], c, false);
    WordsConcat([o.normal[0]], o.normal[1..], c, false);
    assert b.out.Ordered() == o.Ordered() + [o.normal[0]];
    WordsConcat(o.Ordered(), [o.normal[0]], c, true);
    WordsNone([o.normal[0]], c, true);
    hide Sorted;
    assert Words(o.Ordered(), c, true) + [] == Words(o.Ordered(), c, true);
    var x, y, z := Words(o.wire, c, false), Words([o.normal[0]], c, false), Words(o.normal[1..], c, false);
    assert (x + y) + z == x + (y + z);
  }

  lemma TransmittedSorted(a: Endpoint, b: Endpoint)
    requires Sorted(a) && SameQueues(a.(out := Transmitted(a.out)), b)
    ensures Sorted(b)
  {
    hide Said, Meant, Urgent;
  }

  lemma TransmittedSame(a: Endpoint, b: Endpoint, c: ChanId, urgent: bool)
    requires Sorted(a) && SameQueues(a.(out := Transmitted(a.out)), b)
    ensures Sorted(b) && UnderWay(b, c, urgent) == UnderWay(a, c, urgent)
  {
    TransmittedSorted(a, b);
    hide Sorted, Words, Thoughts;
    if a.out.high != [] {
      HighTransmitted(a, b, c);
    } else if a.out.normal != [] {
      NormalTransmitted(a, b, c);
    }
  }

  /** The first message leaves the wire. */
  lemma Popped(a: Endpoint, b: Endpoint, c: ChanId, urgent: bool)
    requires a.out.wire != [] && SameQueues(a.(out := a.out.(wire := a.out.wire[1..])), b)
    ensures UnderWay(a, c, urgent) == Words(a.out.wire[..1], c, urgent) + UnderWay(b, c, urgent)
    ensures Sorted(a) ==> Sorted(b)
  {
    hide Words, Thoughts, Said, Meant, Urgent;
    var o := a.out;
    assert o.wire == o.wire[..1] + o.wire[1..];
    WordsConcat(o.wire[..1], o.wire[1..], c, false);
    assert o.Ordered() == o.wire[..1] + b.out.Ordered();
    WordsConcat(o.wire[..1], b.out.Ordered(), c, true);
  }

  // ---------------------------------------------------------------------------
  // The balance of every step
  // ---------------------------------------------------------------------------

  /** What was under way and is queued now is given to the peer or still under way. */
  ghost predicate Balanced(s: System, step: Step, e: Node, c: ChanId, urgent: bool) {
    && UnderWay(Ep(s, e), c, urgent) + Queues(s, step, e, c, urgent)
       == Gives(s, step, e, c, urgent) + UnderWay(Ep(Next(s, step), e), c, urgent)
    && Sorted(Ep(Next(s, step), e))
  }

  lemma Untouched(s: System, step: Step, e: Node, c: ChanId, urgent: bool)
    requires Sorted(Ep(s, e)) && SameQueues(Ep(s, e), Ep(Next(s, step), e))
    requires Queues(s, step, e, c, urgent) == [] && Gives(s, step, e, c, urgent) == []
    ensures Balanced(s, step, e, c, urgent)
  {
    hide Queues, Gives, Next, Words, Thoughts, Meant, Said, Urgent;
  }

  lemma QueueBalanced(s: System, step: Step, e: Node, evt: PortEvt, c: ChanId, urgent: bool)
    requires Sorted(Ep(s, e)) && Added(Ep(s, e), Ep(Next(s, step), e), evt)
    requires Queues(s, step, e, c, urgent) == OnWay(Meant(evt), evt.chan, c, urgent)
    requires Gives(s, step, e, c, urgent) == []
    ensures Balanced(s, step, e, c, urgent)
  {
    hide Next, Queues, Gives, Words, Thoughts, OnWay;
    var a, b := Ep(s, e), Ep(Next(s, step), e);
    AddedSorted(a, b, evt);
    AddedNormal(a, b, evt, c);
    AddedUrgent(a, b, evt, c);
    hide NormalWay, UrgentWay, Sorted, Added;
  }

  lemma HandleBalanced(s: System, step: Step, e: Node, evt: PortEvt, msg: Msg, c: ChanId, urgent: bool)
    requires Sorted(Ep(s, e)) && Handled(Ep(s, e), Ep(Next(s, step), e), evt, msg)
    requires Queues(s, step, e, c, urgent) == Gives(s, step, e, c, urgent) == []
    ensures Balanced(s, step, e, c, urgent)
  {
    hide Next, Queues, Gives, Words, Thoughts;
    var a, b := Ep(s, e), Ep(Next(s, step), e);
    HandledSorted(a, b, evt, msg);
    HandledNormal(a, b, evt, msg, c);
    HandledUrgent(a, b, evt, msg, c);
    hide NormalWay, UrgentWay, Sorted, Handled;
  }

  /** Steps by which an application, its dropped handles or its receiver queue an event. */
  predicate Speaks(step: Step) {
    step.Accept? || step.QueueReject? || step.Send? || step.QueueSenderDropped? || step.CloseReceiver?
    || step.QueueReceiverDropped? || step.QueueNote?
  }

  function EventOf(s: System, step: Step): PortEvt
    requires Possible(s, step) && Speaks(step)
  {
    var c := step.c;
    var mine, theirs := KeyOf(s.chans, step.e, c), KeyOf(s.chans, Peer(step.e), c);
    match step
    case Accept(e, _, key) => AcceptedReq(key, s.chans[c].num, c)
    case QueueReject(e, _, noPorts) => RejectedReq(s.chans[c].num, noPorts, c)
    case Send(e, _, payload) => PayloadEvent(payload, mine.value, theirs.value, c)
    case QueueSenderDropped(e, _) => SenderDropped(mine.value, c)
    case CloseReceiver(e, _) => ReceiverClosed(mine.value, c)
    case QueueReceiverDropped(e, _) => ReceiverDropped(mine.value, c)
    case QueueNote(e, _, note) => NoteEvent(note, theirs.value, c)
  }

  /** Neither the state nor the step is one that has failed. */
  predicate Fine(s: System, step: Step) {
    !s.failed && !Next(s, step).failed
  }

  lemma EventMeant(s: System, step: Step, c: ChanId, urgent: bool)
    requires Possible(s, step) && Speaks(step)
    ensures var evt := EventOf(s, step);
            Queues(s, step, step.e, c, urgent) == OnWay(Meant(evt), evt.chan, c, urgent)
  {
    hide Next;
  }

  lemma EventAdded(s: System, step: Step)
    requires Possible(s, step) && Speaks(step) && Fine(s, step)
    ensures Added(Ep(s, step.e), Ep(Next(s, step), step.e), EventOf(s, step))
  {
    hide Reserve, FreshKey;
  }

  lemma SpeakingBalanced(s: System, step: Step, e: Node, c: ChanId, urgent: bool)
    requires Sorted(Ep(s, e)) && Speaks(step) && Fine(s, step)
    ensures Balanced(s, step, e, c, urgent)
  {
    hide Sorted, Balanced;
    if step.e == e && Possible(s, step) {
      EventMeant(s, step, c, urgent);
      EventAdded(s, step);
      hide Possible, Queues, EventOf, Next, Added, OnWay, Meant;
      QueueBalanced(s, step, e, EventOf(s, step), c, urgent);
    } else {
      hide Reserve, FreshKey, PayloadEvent, NoteEvent;
      assert SameQueues(Ep(s, e), Ep(Next(s, step), e));
      Untouched(s, step, e, c, urgent);
    }
  }

  lemma {:induction false} ThoughtsAbsent(q: seq<PortEvt>, c: ChanId, urgent: bool)
    requires forall i | 0 <= i < |q| :: q[i].chan != c
    ensures Thoughts(q, c, urgent) == []
  {
    hide Meant, Urgent;
    if q != [] {
      ThoughtsAbsent(q[1..], c, urgent);
    }
  }

  /** A request does not wait in an event queue. Its message is queued at once. */
  lemma QueuedAtOnce(a: Endpoint, b: Endpoint, msg: Msg, c: ChanId, urgent: bool)
    requires Sorted(a) && !Urgent(Said(msg)) && SameQueues(b, a.(out := a.out.(normal := a.out.normal + [msg])))
    requires forall i | 0 <= i < |a.events| :: a.events[i].chan != msg.chan
    ensures Sorted(b) && UnderWay(b, c, urgent) == UnderWay(a, c, urgent) + OnWay(Said(msg), msg.chan, c, urgent)
  {
    hide Said, Meant, Words, Thoughts;
    OneWord(msg, c, false);
    WordsConcat(a.out.normal, [msg], c, false);
    assert a.out.Ordered() == b.out.Ordered();
    if c == msg.chan {
      ThoughtsAbsent(a.events, c, false);
    }
  }

  lemma ConnectBalanced(s: System, step: Step, e: Node, c: ChanId, urgent: bool)
    requires Sorted(Ep(s, e)) && step.Connect? && Fine(s, step) && EventsOk(s.chans, e, Ep(s, e).events)
    ensures Balanced(s, step, e, c, urgent)
  {
    hide Sorted;
    if step.e == e && Possible(s, step) {
      var msg := OpenPort(step.num, |s.chans|);
      var a, b := Ep(s, e), Ep(Next(s, step), e);
      assert SameQueues(b, a.(out := a.out.(normal := a.out.normal + [msg])));
      assert Queues(s, step, e, c, urgent) == OnWay(Said(msg), msg.chan, c, urgent);
      hide Possible, Queues, Next, OnWay, SameQueues, UnderWay;
      QueuedAtOnce(a, b, msg, c, urgent);
    } else {
      hide Balanced;
      assert SameQueues(Ep(s, e), Ep(Next(s, step), e));
      Untouched(s, step, e, c, urgent);
    }
  }

  lemma HandleNextBalanced(s: System, step: Step, e: Node, c: ChanId, urgent: bool)
    requires Sorted(Ep(s, e)) && (step.HandleNext? || step.HandleHigh?) && Fine(s, step)
    ensures Balanced(s, step, e, c, urgent)
  {
    hide Balanced, HandleEvent, Meant, Said;
    var a, b := Ep(s, e), Ep(Next(s, step), e);
    if step == HandleNext(e) && a.events != [] {
      EventBecomes(a.mux, a.events[0]);
      assert a.events == [a.events[0]] + a.events[1..];
      HandleBalanced(s, step, e, a.events[0], HandleEvent(a.mux, a.events[0]).msg, c, urgent);
    } else if step == HandleHigh(e) && a.highEvents != [] {
      EventBecomes(a.mux, a.highEvents[0]);
      assert a.highEvents == [a.highEvents[0]] + a.highEvents[1..];
      HandleBalanced(s, step, e, a.highEvents[0], HandleEvent(a.mux, a.highEvents[0]).msg, c, urgent);
    } else {
      Untouched(s, step, e, c, urgent);
    }
  }

  lemma TransmitBalanced(s: System, step: Step, e: Node, c: ChanId, urgent: bool)
    requires Sorted(Ep(s, e)) && step.Transmit? && Fine(s, step)
    ensures Balanced(s, step, e, c, urgent)
  {
    hide Sorted, Transmitted, UnderWay;
    if step.e == e {
      TransmittedSame(Ep(s, e), Ep(Next(s, step), e), c, urgent);
    } else {
      Untouched(s, step, e, c, urgent);
    }
  }

  lemma DeliverBalanced(s: System, step: Step, e: Node, c: ChanId, urgent: bool)
    requires Sorted(Ep(s, e)) && step.Deliver? && Fine(s, step)
    ensures Balanced(s, step, e, c, urgent)
  {
    hide Sorted, HandleReceived, UnderWay, Words;
    if step.e == Peer(e) && Ep(s, e).out.wire != [] {
      Popped(Ep(s, e), Ep(Next(s, step), e), c, urgent);
    } else {
      hide Balanced;
      Untouched(s, step, e, c, urgent);
    }
  }

  lemma LocalBalanced(s: System, step: Step, e: Node, c: ChanId, urgent: bool)
    requires Sorted(Ep(s, e)) && Fine(s, step)
    requires step.Allocate? || step.Release? || step.DropRequest? || step.DropSender? || step.DropReceiver?
    ensures Balanced(s, step, e, c, urgent)
  {
    hide Sorted, Balanced;
    Untouched(s, step, e, c, urgent);
  }

  lemma StepBalanced(s: System, step: Step, e: Node, c: ChanId, urgent: bool)
    requires Sorted(Ep(s, e)) && Fine(s, step) && EventsOk(s.chans, e, Ep(s, e).events)
    ensures Balanced(s, step, e, c, urgent)
  {
    hide *;
    if step.Connect? {
      ConnectBalanced(s, step, e, c, urgent);
    } else if step.HandleNext? || step.HandleHigh? {
      HandleNextBalanced(s, step, e, c, urgent);
    } else if step.Transmit? {
      TransmitBalanced(s, step, e, c, urgent);
    } else if step.Deliver? {
      DeliverBalanced(s, step, e, c, urgent);
    } else if step.Allocate? || step.Release? || step.DropRequest? || step.DropSender? || step.DropReceiver? {
      LocalBalanced(s, step, e, c, urgent);
    } else {
      assert Speaks(step) by {
        Others(step);
      }
      SpeakingBalanced(s, step, e, c, urgent);
    }
  }

  lemma Others(step: Step)
    ensures Speaks(step) || step.Connect? || step.HandleNext? || step.HandleHigh? || step.Transmit? || step.Deliver?
            || step.Allocate? || step.Release? || step.DropRequest? || step.DropSender? || step.DropReceiver?
  {
  }

  // ---------------------------------------------------------------------------
  // Every run
  // ---------------------------------------------------------------------------

  lemma WhileInv(s: System, e: Node)
    requires Inv(s)
    ensures !s.failed && EventsOk(s.chans, e, Ep(s, e).events)
  {
  }

  /**
   What the peer has been given on a channel, followed by what is under way, is what was queued,
   in every run, for both endpoints, all channels and both ways. Nothing is lost, repeated,
   reordered or changed.
   */
  lemma {:induction false} SaidInOrder(steps: seq<Step>, e: Node, c: ChanId, urgent: bool)
    ensures Queued(steps, e, c, urgent) == Given(steps, e, c, urgent) + UnderWay(Ep(Run(steps), e), c, urgent)
    ensures Sorted(Ep(Run(steps), e))
  {
    hide Inv, Next, Queues, Gives, Possible, Sorted, EventsOk;
    if steps != [] {
      var last := |steps| - 1;
      var s, step := Run(steps[..last]), steps[last];
      SaidInOrder(steps[..last], e, c, urgent);
      RunInv(steps[..last]);
      RunInv(steps);
      WhileInv(s, e);
      WhileInv(Next(s, step), e);
      StepBalanced(s, step, e, c, urgent);
      hide UnderWay, Ep;
      Chain(Given(steps[..last], e, c, urgent), UnderWay(Ep(s, e), c, urgent), Queues(s, step, e, c, urgent),
            Gives(s, step, e, c, urgent), UnderWay(Ep(Run(steps), e), c, urgent));
    } else {
      Nothing(e, c, urgent);
    }
  }

  lemma Chain<T>(g: seq<T>, u: seq<T>, q: seq<T>, g': seq<T>, u': seq<T>)
    requires u + q == g' + u'
    ensures g + u + q == g + g' + u'
  {
    assert g + u + q == g + (u + q);
    assert g + g' + u' == g + (g' + u');
  }

  lemma Nothing(e: Node, c: ChanId, urgent: bool)
    ensures Sorted(Ep(INIT, e)) && UnderWay(Ep(INIT, e), c, urgent) == []
  {
  }

  /** Once nothing is under way, the peer has been given exactly what was queued. */
  lemma AllGiven(steps: seq<Step>, e: Node, c: ChanId, urgent: bool)
    requires var ep := Ep(Run(steps), e);
             ep.events == [] && ep.highEvents == [] && ep.out == Out([], [], [])
    ensures Given(steps, e, c, urgent) == Queued(steps, e, c, urgent)
  {
    hide Given, Queued;
    SaidInOrder(steps, e, c, urgent);
    assert Given(steps, e, c, urgent) + [] == Given(steps, e, c, urgent);
  }

  /** A notice is always given to the entry of its own channel, if the peer still has one. */
  lemma NoticesAddressed(steps: seq<Step>, e: Node, i: nat)
    requires i < |Ep(Run(steps), e).out.wire|
    requires Said(Ep(Run(steps), e).out.wire[i]).Notes?
    ensures var m, s := Ep(Run(steps), e).out.wire[i], Run(steps);
            && m.chan < |s.chans| && KeyOf(s.chans, Peer(e), m.chan) == Some(m.port.Flipped())
  {
    RunInv(steps);
    var s := Run(steps);
    var m := Ep(s, e).out.wire[i];
    assert Ep(s, e).out.All()[i] == m;
    assert MsgOk(s.chans, e, m);
  }
}
