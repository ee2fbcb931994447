/**
 Credits of all channels in one direction, over every run.

 One sending endpoint, any number of ports, one receiving endpoint and everything under way
 between them. Messages and returns under way are kept as sequences from which any element
 may arrive next, so no ordering between urgent and normal messages is assumed.
 */
module FlowControl {
  import opened Types
  import opened Sums
  import opened Credits

  /** A message under way: data, or ports which pay four port credits each. */
  datatype Message = DataMsg(port: nat, size: nat, credits: DataCredits) | PortsMsg(port: nat, count: nat)

  datatype PortReturn = PortReturn(port: nat, credits: nat)

  /** What the receiving side tells the sender besides credits. */
  datatype Notice = UsageNotice(port: nat, allow: bool) | FinishNotice(port: nat)

  /**
   One port: the sender's store and assignments and what it has been told, the receiver's
   monitor and unread data, and how far the drop of the receiver has got.
   */
  datatype PortFlow = PortFlow(
    store: nat,
    held: seq<Assigned>,
    abandoned: nat,
    useGlobal: bool,
    hungUp: bool,
    monitor: Monitor,
    unread: seq<Split>,
    lost: Split,
    receiverGone: bool,
    dropHandled: bool)

  datatype Flow = Flow(
    ports: seq<PortFlow>,
    globalStore: nat,
    globalAbandoned: nat,
    under: seq<Message>,
    portReturns: seq<PortReturn>,
    globalReturns: seq<nat>,
    notices: seq<Notice>,
    pool: Global,
    failed: bool)

  function Initial(pool: Global): Flow {
    Flow([], pool.total, 0, [], [], [], [], pool, false)
  }

  datatype Step =
    | OpenPort(limit: u32, throttle: u32)
    | Request(p: nat, pool: Pool, req: nat, minReq: nat)
    | GiveBack(p: nat)
    | SendData(p: nat, size: nat)
    | SendPorts(p: nat, count: nat)
    | Abandon(p: nat, size: nat)
    | Arrive(i: nat)
    | Consume(p: nat)
    | DropReceiver(p: nat)
    | HandleDrop(p: nat)
    | LoseReturn(i: nat)
    | PortReturnArrives(i: nat)
    | SetGlobalAllowed(p: nat, allowed: bool)
    | SendInhibit(p: nat)
    | NoticeArrives(i: nat)
    | LoseNotice(i: nat)
    | ReturnGlobal(target: BufferSize)
    | GlobalReturnArrives(i: nat)

  function Paid(m: Message): Split {
    match m
    case DataMsg(_, size, c) => Charge(size, c)
    case PortsMsg(_, count) => Split(4 * count, 0)
  }

  function NewPort(limit: u32, throttle: u32): PortFlow {
    PortFlow(limit, [], 0, true, false, NewMonitor(limit, throttle), [], Split(0, 0), false, false)
  }

  function Fail(s: Flow): Flow {
    s.(failed := true)
  }

  function SetPort(s: Flow, p: nat, f: PortFlow): Flow
    requires p < |s.ports|
  {
    s.(ports := s.ports[p := f])
  }

  /**
   A sender asks for credits until it learns that the receiver is gone, and for shared ones
   only while it may use them.
   */
  predicate MayRequest(f: PortFlow, pool: Pool) {
    !f.hungUp && (pool == GlobalPool ==> f.useGlobal)
  }

  function DoRequest(s: Flow, p: nat, pool: Pool, req: nat, minReq: nat): Flow
    requires p < |s.ports|
  {
    var f := s.ports[p];
    var got := Grant(if pool == PortPool then f.store else s.globalStore, req, minReq);
    var f' := f.(store := if pool == PortPool then f.store - got else f.store, held := f.held + [Assigned(pool, got)]);
    SetPort(s, p, f').(globalStore := if pool == GlobalPool then s.globalStore - got else s.globalStore)
  }

  /** Taking credits for a message and putting it under way, or losing it before it is queued. */
  function DoPay(s: Flow, p: nat, n: nat, m: Option<Message>): Flow
    requires p < |s.ports|
  {
    var f := s.ports[p];
    var (rest, paid) := Drain(f.held, n);
    match m
    case Some(msg) => SetPort(s, p, f.(held := rest)).(under := s.under + [msg])
    case None =>
      SetPort(s, p, f.(held := rest, abandoned := f.abandoned + paid.port))
      .(globalAbandoned := s.globalAbandoned + paid.global)
  }

  /** A message is charged to the pool and the port, then queued for the receiver if it still exists. */
  function DoArrive(s: Flow, i: nat): Flow
    requires i < |s.under|
  {
    var m := s.under[i];
    var paid := Paid(m);
    if m.port >= |s.ports| then Fail(s)
    else
      var f := s.ports[m.port];
      match (UseGlobal(s.pool, paid.global), UseCredits(f.monitor, paid))
      case (Some(pool), Some(mon)) =>
        if f.receiverGone then
          (match DropGlobal(pool, paid.global)
           case None => Fail(s)
           case Some(pool') =>
             SetPort(s, m.port, f.(monitor := mon, lost := Split(f.lost.port + paid.port, f.lost.global + paid.global)))
             .(under := Remove(s.under, i), pool := pool'))
        else
          SetPort(s, m.port, f.(monitor := mon, unread := f.unread + [paid])).(under := Remove(s.under, i),
            pool := pool)
      case _ => Fail(s)
  }

  /** A request to the sender to stop or resume using shared credits is put under way. */
  function Told(notices: seq<Notice>, p: nat, allow: Option<bool>): seq<Notice> {
    match allow
    case None => notices
    case Some(on) => notices + [UsageNotice(p, on)]
  }

  function DoConsume(s: Flow, p: nat): Flow
    requires p < |s.ports| && s.ports[p].unread != []
  {
    var f := s.ports[p];
    match (StartReturn(f.monitor, f.unread[0]), DropGlobal(s.pool, f.unread[0].global))
    case (Some(r), Some(pool)) =>
      SetPort(s, p, f.(monitor := r.monitor, unread := f.unread[1..]))
      .(pool := pool,
        portReturns := match r.credits
                       case Some(n) => s.portReturns + [PortReturn(p, n)]
                       case None => s.portReturns,
        notices := Told(s.notices, p, r.allow))
    case _ => Fail(s)
  }

  function PortOfSplit(): Split -> nat {
    (x: Split) => x.port
  }

  function GlobalOfSplit(): Split -> nat {
    (x: Split) => x.global
  }

  function DoDropReceiver(s: Flow, p: nat): Flow
    requires p < |s.ports|
  {
    var f := s.ports[p];
    var port, global := Sum(f.unread, PortOfSplit()), Sum(f.unread, GlobalOfSplit());
    match DropGlobal(s.pool, global)
    case None => Fail(s)
    case Some(pool) =>
      SetPort(s, p, f.(unread := [], receiverGone := true, lost := Split(f.lost.port + port, f.lost.global + global)))
      .(pool := pool)
  }

  function DoPortReturn(s: Flow, i: nat): Flow
    requires i < |s.portReturns|
  {
    var r := s.portReturns[i];
    if r.port >= |s.ports| then Fail(s)
    else
      var f := s.ports[r.port];
      if f.store + r.credits >= U32_BOUND then Fail(s)
      else SetPort(s, r.port, f.(store := f.store + r.credits)).(portReturns := Remove(s.portReturns, i))
  }

  function DoTell(s: Flow, p: nat, r: Return): Flow
    requires p < |s.ports|
  {
    SetPort(s, p, s.ports[p].(monitor := r.monitor)).(notices := Told(s.notices, p, r.allow))
  }

  /** The sender is told; notices for ports it does not know are ignored. */
  function DoNotice(s: Flow, i: nat): Flow
    requires i < |s.notices|
  {
    var s' := s.(notices := Remove(s.notices, i));
    match s.notices[i]
    case UsageNotice(p, on) => if p < |s.ports| then SetPort(s', p, s.ports[p].(useGlobal := on)) else s'
    case FinishNotice(p) => if p < |s.ports| then SetPort(s', p, s.ports[p].(hungUp := true)) else s'
  }

  function Next(s: Flow, step: Step): Flow {
    if s.failed then s
    else
      match step
      case OpenPort(limit, throttle) =>
        s.(ports := s.ports + [NewPort(limit, throttle)])
      case Request(p, pool, req, minReq) =>
        if p < |s.ports| && MayRequest(s.ports[p], pool) then DoRequest(s, p, pool, req, minReq) else s
      case GiveBack(p) =>
        if p >= |s.ports| then s
        else
          var f := s.ports[p];
          SetPort(s, p, f.(store := f.store + Sum(f.held, PortPart()), held := []))
          .(globalStore := s.globalStore + Sum(f.held, GlobalPart()))
      case SendData(p, size) =>
        if p < |s.ports| && Max(size, 1) <= Available(s.ports[p].held)
        then DoPay(s, p, Max(size, 1), Some(DataMsg(p, size, Label(Drain(s.ports[p].held, Max(size, 1)).1)))) else s
      case SendPorts(p, count) =>
        if p < |s.ports| && 4 * count <= Available(s.ports[p].held) && Sum(s.ports[p].held, GlobalPart()) == 0
        then DoPay(s, p, 4 * count, Some(PortsMsg(p, count))) else s
      case Abandon(p, size) =>
        if p < |s.ports| && Max(size, 1) <= Available(s.ports[p].held) then DoPay(s, p, Max(size, 1), None) else s
      case Arrive(i) => if i < |s.under| then DoArrive(s, i) else s
      case Consume(p) => if p < |s.ports| && s.ports[p].unread != [] then DoConsume(s, p) else s
      case DropReceiver(p) => if p < |s.ports| then DoDropReceiver(s, p) else s
      case HandleDrop(p) =>
        if p < |s.ports| && s.ports[p].receiverGone && !s.ports[p].dropHandled
        then SetPort(s, p, s.ports[p].(dropHandled := true)).(notices := s.notices + [FinishNotice(p)]) else s
      case LoseReturn(i) =>
        if i < |s.portReturns| && s.portReturns[i].port < |s.ports| then
          var f := s.ports[s.portReturns[i].port];
          SetPort(s, s.portReturns[i].port, f.(abandoned := f.abandoned + s.portReturns[i].credits))
          .(portReturns := Remove(s.portReturns, i))
        else s
      case PortReturnArrives(i) => if i < |s.portReturns| then DoPortReturn(s, i) else s
      case SetGlobalAllowed(p, allowed) =>
        if p < |s.ports| && !s.ports[p].receiverGone then DoTell(s, p, SetAllowed(s.ports[p].monitor, allowed)) else s
      case SendInhibit(p) => if p < |s.ports| then DoTell(s, p, Inhibit(s.ports[p].monitor)) else s
      case NoticeArrives(i) => if i < |s.notices| then DoNotice(s, i) else s
      case LoseNotice(i) => if i < |s.notices| then s.(notices := Remove(s.notices, i)) else s
      case ReturnGlobal(target) =>
        if target.size >= U32_BOUND || !(0 < target.threshold <= target.size) then s
        else
          (match ReturnToRemote(s.pool, target)
           case None => Fail(s)
           case Some((pool, None)) => s.(pool := pool)
           case Some((pool, Some(c))) => s.(pool := pool, globalReturns := s.globalReturns + [c.credits]))
      case GlobalReturnArrives(i) =>
        if i >= |s.globalReturns| then s
        else if s.globalStore + s.globalReturns[i] >= U32_BOUND then Fail(s)
        else s.(globalStore := s.globalStore + s.globalReturns[i], globalReturns := Remove(s.globalReturns, i))
  }

  function Run(pool: Global, steps: seq<Step>): Flow {
    if steps == [] then Initial(pool) else Next(Run(pool, steps[..|steps| - 1]), steps[|steps| - 1])
  }

  // ---------------------------------------------------------------------------
  // Conservation
  // ---------------------------------------------------------------------------

  function PortShare(p: nat): Message -> nat {
    (m: Message) => if m.port == p then Paid(m).port else 0
  }

  function GlobalShare(): Message -> nat {
    (m: Message) => Paid(m).global
  }

  function ReturnShare(p: nat): PortReturn -> nat {
    (r: PortReturn) => if r.port == p then r.credits else 0
  }

  function Itself(): nat -> nat {
    (n: nat) => n
  }

  function HeldGlobal(): PortFlow -> nat {
    (f: PortFlow) => Sum(f.held, GlobalPart())
  }

  function UnreadGlobal(): PortFlow -> nat {
    (f: PortFlow) => Sum(f.unread, GlobalOfSplit())
  }

  /** All credits of one port, wherever they are. */
  function PortTotal(s: Flow, p: nat): nat
    requires p < |s.ports|
  {
    var f := s.ports[p];
    f.store + Sum(f.held, PortPart()) + f.abandoned + f.monitor.portUsed + f.monitor.toReturn
    + Sum(s.under, PortShare(p)) + Sum(s.portReturns, ReturnShare(p))
  }

  /** All shared credits, wherever they are. */
  function GlobalTotal(s: Flow): nat {
    s.globalStore + Sum(s.ports, HeldGlobal()) + s.globalAbandoned + s.pool.used + s.pool.toReturn
    + Sum(s.under, GlobalShare()) + Sum(s.globalReturns, Itself())
  }

  /**
   The receiver's counters are what lies unread, plus what was dropped with a receiver, and
   credits not yet returned stay below the threshold.
   */
  predicate Counted(f: PortFlow) {
    && f.monitor.portUsed == Sum(f.unread, PortOfSplit()) + f.lost.port
    && f.monitor.globalUsed == Sum(f.unread, GlobalOfSplit()) + f.lost.global
    && (if f.receiverGone then f.unread == [] else f.lost == Split(0, 0))
    && f.monitor.toReturn < ReturnThreshold(f.monitor.limit)
  }

  predicate PortOk(s: Flow, p: nat)
    requires p < |s.ports|
  {
    Counted(s.ports[p]) && s.ports[p].monitor.limit < U32_BOUND && PortTotal(s, p) == s.ports[p].monitor.limit
  }

  predicate PoolOk(s: Flow) {
    && s.pool.total < U32_BOUND
    && GlobalTotal(s) == s.pool.total
    && s.pool.used == Sum(s.ports, UnreadGlobal())
  }

  predicate Known(s: Flow) {
    && (forall i | 0 <= i < |s.under| :: s.under[i].port < |s.ports|)
    && (forall i | 0 <= i < |s.portReturns| :: s.portReturns[i].port < |s.ports|)
  }

  predicate Inv(s: Flow) {
    && Known(s)
    && (forall p | 0 <= p < |s.ports| :: PortOk(s, p))
    && PoolOk(s)
  }

  lemma InitialInv(pool: Global)
    requires Fresh(pool)
    ensures Inv(Initial(pool))
  {
  }

  // ---------------------------------------------------------------------------
  // Steps. Each changes the record of one port and moves credits between places.
  // ---------------------------------------------------------------------------

  /** What the other ports see. */
  ghost predicate OthersKept(s: Flow, s': Flow, p: nat) {
    && |s'.ports| == |s.ports|
    && (forall q | 0 <= q < |s.ports| && q != p ::
          && s'.ports[q] == s.ports[q]
          && Sum(s'.under, PortShare(q)) == Sum(s.under, PortShare(q))
          && Sum(s'.portReturns, ReturnShare(q)) == Sum(s.portReturns, ReturnShare(q)))
  }

  lemma PortsKept(s: Flow, s': Flow, p: nat)
    requires Inv(s) && p < |s.ports| && OthersKept(s, s', p) && PortOk(s', p)
    ensures forall q | 0 <= q < |s'.ports| :: PortOk(s', q)
  {
    forall q | 0 <= q < |s'.ports|
      ensures PortOk(s', q)
    {
      assert PortOk(s, q);
    }
  }

  lemma SharedSums(s: Flow, p: nat, f: PortFlow)
    requires p < |s.ports|
    ensures var ps := s.ports[p := f];
            && Sum(ps, HeldGlobal()) + Sum(s.ports[p].held, GlobalPart())
                 == Sum(s.ports, HeldGlobal()) + Sum(f.held, GlobalPart())
            && Sum(ps, UnreadGlobal()) + Sum(s.ports[p].unread, GlobalOfSplit())
                 == Sum(s.ports, UnreadGlobal()) + Sum(f.unread, GlobalOfSplit())
            && Sum(s.ports[p].unread, GlobalOfSplit()) <= Sum(s.ports, UnreadGlobal())
            && Sum(s.ports[p].held, GlobalPart()) <= Sum(s.ports, HeldGlobal())
  {
    SumUpdate(s.ports, p, f, HeldGlobal());
    SumUpdate(s.ports, p, f, UnreadGlobal());
  }

  lemma OpenKeeps(s: Flow, limit: u32, throttle: u32)
    requires Inv(s) && !s.failed
    ensures Inv(Next(s, OpenPort(limit, throttle)))
  {
    var f := NewPort(limit, throttle);
    SumAppend(s.ports, f, HeldGlobal());
    SumAppend(s.ports, f, UnreadGlobal());
    OpenedPort(s, limit, throttle);
    hide PortOk;
  }

  lemma OpenedPort(s: Flow, limit: u32, throttle: u32)
    requires Inv(s)
    ensures var s' := s.(ports := s.ports + [NewPort(limit, throttle)]); forall q | 0 <= q < |s'.ports| :: PortOk(s', q)
  {
    var f := NewPort(limit, throttle);
    var s' := s.(ports := s.ports + [f]);
    SumZero(s.under, PortShare(|s.ports|));
    SumZero(s.portReturns, ReturnShare(|s.ports|));
    hide Sum, Paid, PoolOk;
    forall q | 0 <= q < |s'.ports|
      ensures PortOk(s', q)
    {
      assert q < |s.ports| ==> PortOk(s, q);
      assert q == |s.ports| ==> s'.ports[q] == f && PortTotal(s', q) == limit;
    }
  }

  lemma RequestKeeps(s: Flow, p: nat, pool: Pool, req: nat, minReq: nat)
    requires Inv(s) && p < |s.ports|
    ensures Inv(DoRequest(s, p, pool, req, minReq))
  {
    var s' := DoRequest(s, p, pool, req, minReq);
    var got := Grant(if pool == PortPool then s.ports[p].store else s.globalStore, req, minReq);
    SumAppend(s.ports[p].held, Assigned(pool, got), PortPart());
    SumAppend(s.ports[p].held, Assigned(pool, got), GlobalPart());
    SharedSums(s, p, s'.ports[p]);
    assert PortOk(s, p);
    PortsKept(s, s', p);
  }

  lemma GiveBackKeeps(s: Flow, p: nat)
    requires Inv(s) && p < |s.ports|
    ensures Inv(Next(s, GiveBack(p)))
  {
    var s' := Next(s, GiveBack(p));
    SharedSums(s, p, s'.ports[p]);
    assert PortOk(s, p);
    PortsKept(s, s', p);
  }

  lemma SendKeeps(s: Flow, p: nat, n: nat, msg: Message)
    requires Inv(s) && p < |s.ports| && n <= Available(s.ports[p].held)
    requires msg.port == p && Paid(msg) == Drain(s.ports[p].held, n).1
    ensures Inv(DoPay(s, p, n, Some(msg)))
  {
    hide Drain;
    var s' := DoPay(s, p, n, Some(msg));
    SharedSums(s, p, s'.ports[p]);
    forall q | 0 <= q < |s.ports|
      ensures Sum(s'.under, PortShare(q)) == Sum(s.under, PortShare(q)) + PortShare(q)(msg)
    {
      SumAppend(s.under, msg, PortShare(q));
    }
    SumAppend(s.under, msg, GlobalShare());
    assert PortOk(s, p);
    PortsKept(s, s', p);
  }

  lemma AbandonKeeps(s: Flow, p: nat, n: nat)
    requires Inv(s) && p < |s.ports| && n <= Available(s.ports[p].held)
    ensures Inv(DoPay(s, p, n, None))
  {
    hide Drain;
    var s' := DoPay(s, p, n, None);
    SharedSums(s, p, s'.ports[p]);
    assert PortOk(s, p);
    PortsKept(s, s', p);
  }

  /** Removing a message takes its share from every sum. */
  lemma RemovedShares(s: Flow, i: nat, p: nat)
    requires i < |s.under|
    ensures Sum(Remove(s.under, i), PortShare(p)) + PortShare(p)(s.under[i]) == Sum(s.under, PortShare(p))
    ensures Sum(Remove(s.under, i), GlobalShare()) + Paid(s.under[i]).global == Sum(s.under, GlobalShare())
  {
    SumRemove(s.under, i, PortShare(p));
    SumRemove(s.under, i, GlobalShare());
  }

  /** The one way to exceed a counter: a port keeps counting shared credits after its receiver is gone. */
  predicate Overflows(s: Flow, i: nat)
    requires i < |s.under| && s.under[i].port < |s.ports|
  {
    var f := s.ports[s.under[i].port];
    f.receiverGone && f.monitor.globalUsed + Paid(s.under[i]).global >= U32_BOUND
  }

  /** What is under way fits into what the receiver has left. */
  lemma ArrivalFits(s: Flow, i: nat)
    requires Inv(s) && i < |s.under|
    ensures var m := s.under[i];
            && m.port < |s.ports|
            && UseGlobal(s.pool, Paid(m).global).Some?
            && (UseCredits(s.ports[m.port].monitor, Paid(m)).None? <==> Overflows(s, i))
            && DropGlobal(UseGlobal(s.pool, Paid(m).global).value, Paid(m).global).Some?
  {
    var m := s.under[i];
    RemovedShares(s, i, m.port);
    assert PortOk(s, m.port);
    SharedSums(s, m.port, s.ports[m.port]);
  }

  lemma ArriveKeeps(s: Flow, i: nat)
    requires Inv(s) && i < |s.under| && !s.failed
    ensures Inv(DoArrive(s, i)) && (DoArrive(s, i).failed <==> Overflows(s, i))
  {
    ArrivalFits(s, i);
    if Overflows(s, i) {
      assert DoArrive(s, i) == Fail(s);
      FailedInv(s);
    } else {
      ArrivalMoves(s, i);
    }
  }

  lemma FailedInv(s: Flow)
    requires Inv(s)
    ensures Inv(Fail(s))
  {
    forall p | 0 <= p < |s.ports|
      ensures PortOk(Fail(s), p)
    {
      assert PortOk(s, p);
    }
  }

  /** The message leaves the wire and its charge shows up at the receiver. */
  lemma ArrivalMoves(s: Flow, i: nat)
    requires Inv(s) && i < |s.under| && s.under[i].port < |s.ports| && !Overflows(s, i)
    ensures Inv(DoArrive(s, i)) && DoArrive(s, i).failed == s.failed
  {
    ArrivalAtPorts(s, i);
    ArrivalAtPool(s, i);
    hide Paid, Sum, PoolOk, PortOk, Overflows;
    ArrivalFits(s, i);
  }

  lemma ArrivalAtPorts(s: Flow, i: nat)
    requires Inv(s) && i < |s.under| && s.under[i].port < |s.ports| && !Overflows(s, i)
    ensures forall q | 0 <= q < |DoArrive(s, i).ports| :: PortOk(DoArrive(s, i), q)
  {
    var p := s.under[i].port;
    var s' := DoArrive(s, i);
    forall q | 0 <= q < |s.ports|
      ensures Sum(Remove(s.under, i), PortShare(q)) + PortShare(q)(s.under[i]) == Sum(s.under, PortShare(q))
    {
      RemovedShares(s, i, q);
    }
    ArrivalAtPort(s, i);
    hide Sum, Paid, PoolOk, PortOk, Overflows, Remove, Counted;
    ArrivalFits(s, i);
    PortsKept(s, s', p);
  }

  lemma ArrivalAtPort(s: Flow, i: nat)
    requires Inv(s) && i < |s.under| && s.under[i].port < |s.ports| && !Overflows(s, i)
    ensures |DoArrive(s, i).ports| == |s.ports| && PortOk(DoArrive(s, i), s.under[i].port)
  {
    hide Paid;
    ArrivalFits(s, i);
    var p := s.under[i].port;
    var f, paid := s.ports[p], Paid(s.under[i]);
    SumAppend(f.unread, paid, PortOfSplit());
    SumAppend(f.unread, paid, GlobalOfSplit());
    RemovedShares(s, i, p);
    hide Sum, PoolOk, Overflows, Remove;
    assert PortOk(s, p);
  }

  lemma ArrivalAtPool(s: Flow, i: nat)
    requires Inv(s) && i < |s.under| && s.under[i].port < |s.ports| && !Overflows(s, i)
    ensures PoolOk(DoArrive(s, i))
  {
    hide Paid, PortOk;
    ArrivalFits(s, i);
    var m := s.under[i];
    var p, paid := m.port, Paid(m);
    var s' := DoArrive(s, i);
    SumAppend(s.ports[p].unread, paid, GlobalOfSplit());
    SharedSums(s, p, s'.ports[p]);
    RemovedShares(s, i, p);
  }

  /** Whatever is consumed was counted when it arrived, and a return never exceeds the limit. */
  lemma ConsumeKeeps(s: Flow, p: nat)
    requires Inv(s) && p < |s.ports| && s.ports[p].unread != []
    ensures Inv(DoConsume(s, p)) && DoConsume(s, p).failed == s.failed
  {
    var f := s.ports[p];
    ConsumeAllowed(s, p);
    var s' := DoConsume(s, p);
    var r := StartReturn(f.monitor, f.unread[0]).value;
    if r.credits.Some? {
      forall q | 0 <= q < |s.ports|
        ensures Sum(s'.portReturns, ReturnShare(q))
                == Sum(s.portReturns, ReturnShare(q)) + if q == p then r.credits.value else 0
      {
        SumAppend(s.portReturns, PortReturn(p, r.credits.value), ReturnShare(q));
      }
    }
    SharedSums(s, p, s'.ports[p]);
    assert PortOk(s, p);
    hide Paid, Overflows, ReturnThreshold;
    PortsKept(s, s', p);
  }

  lemma ConsumeAllowed(s: Flow, p: nat)
    requires Inv(s) && p < |s.ports| && s.ports[p].unread != []
    ensures StartReturn(s.ports[p].monitor, s.ports[p].unread[0]).Some?
    ensures DropGlobal(s.pool, s.ports[p].unread[0].global).Some?
  {
    assert PortOk(s, p);
    SharedSums(s, p, s.ports[p]);
  }

  lemma DropReceiverKeeps(s: Flow, p: nat)
    requires Inv(s) && p < |s.ports|
    ensures Inv(DoDropReceiver(s, p)) && DoDropReceiver(s, p).failed == s.failed
  {
    DropAllowed(s, p);
    DropAtPool(s, p);
    var s' := DoDropReceiver(s, p);
    assert PortOk(s, p);
    hide Paid, Overflows, Sum, PoolOk, ReturnThreshold;
    PortsKept(s, s', p);
  }

  lemma DropAllowed(s: Flow, p: nat)
    requires Inv(s) && p < |s.ports|
    ensures DropGlobal(s.pool, Sum(s.ports[p].unread, GlobalOfSplit())).Some?
  {
    SharedSums(s, p, s.ports[p]);
    hide PortOk;
  }

  lemma DropAtPool(s: Flow, p: nat)
    requires Inv(s) && p < |s.ports|
    ensures PoolOk(DoDropReceiver(s, p))
  {
    DropAllowed(s, p);
    SharedSums(s, p, DoDropReceiver(s, p).ports[p]);
    hide PortOk, Paid;
  }

  /** A step that leaves shared credits alone. */
  lemma PoolUntouched(s: Flow, s': Flow, p: nat)
    requires PoolOk(s) && p < |s.ports| && |s'.ports| == |s.ports|
    requires s'.ports == s.ports[p := s'.ports[p]]
    requires s'.ports[p].held == s.ports[p].held && s'.ports[p].unread == s.ports[p].unread
    requires s'.globalStore == s.globalStore && s'.globalAbandoned == s.globalAbandoned && s'.pool == s.pool
    requires s'.under == s.under && s'.globalReturns == s.globalReturns
    ensures PoolOk(s')
  {
    SharedSums(s, p, s'.ports[p]);
    hide Sum;
  }

  /** Port returns after one of them has left. */
  lemma ReturnGone(s: Flow, i: nat)
    requires i < |s.portReturns|
    ensures forall q: nat | q < |s.ports| ::
              Sum(Remove(s.portReturns, i), ReturnShare(q)) + ReturnShare(q)(s.portReturns[i])
                == Sum(s.portReturns, ReturnShare(q))
  {
    forall q: nat | q < |s.ports|
      ensures Sum(Remove(s.portReturns, i), ReturnShare(q)) + ReturnShare(q)(s.portReturns[i])
              == Sum(s.portReturns, ReturnShare(q))
    {
      SumRemove(s.portReturns, i, ReturnShare(q));
    }
  }

  lemma LoseReturnKeeps(s: Flow, i: nat)
    requires Inv(s) && i < |s.portReturns|
    ensures Inv(Next(s, LoseReturn(i))) && Next(s, LoseReturn(i)).failed == s.failed
  {
    hide DoRequest, DoPay, DoArrive, DoConsume, DoDropReceiver, DoPortReturn, ReturnToRemote, SetAllowed, Inhibit,
      Drain, Sum, Paid, ReturnThreshold;
    var p := s.portReturns[i].port;
    var s' := Next(s, LoseReturn(i));
    assert PortOk(s, p);
    if !s.failed {
      ReturnGone(s, i);
      PoolUntouched(s, s', p);
      hide PoolOk;
      PortsKept(s, s', p);
    }
  }

  lemma PortReturnKeeps(s: Flow, i: nat)
    requires Inv(s) && i < |s.portReturns|
    ensures Inv(DoPortReturn(s, i)) && DoPortReturn(s, i).failed == s.failed
  {
    hide Sum, Paid, ReturnThreshold;
    var p := s.portReturns[i].port;
    assert PortOk(s, p);
    ReturnGone(s, i);
    var s' := DoPortReturn(s, i);
    PoolUntouched(s, s', p);
    hide PoolOk;
    PortsKept(s, s', p);
  }

  /** Flags, usage and notices carry no credits. */
  lemma FlagsKeep(s: Flow, p: nat, f: PortFlow, notices: seq<Notice>)
    requires Inv(s) && p < |s.ports|
    requires f == s.ports[p].(monitor := s.ports[p].monitor.(allowed := f.monitor.allowed, usage := f.monitor.usage),
                              useGlobal := f.useGlobal, hungUp := f.hungUp, dropHandled := f.dropHandled)
    ensures Inv(SetPort(s, p, f).(notices := notices))
  {
    var s' := SetPort(s, p, f).(notices := notices);
    assert PortOk(s, p);
    SharedSums(s, p, f);
    PortsKept(s, s', p);
  }

  lemma NoticesOnly(s: Flow, notices: seq<Notice>)
    requires Inv(s)
    ensures Inv(s.(notices := notices))
  {
    forall p | 0 <= p < |s.ports|
      ensures PortOk(s.(notices := notices), p)
    {
      assert PortOk(s, p);
    }
  }

  lemma TellKeeps(s: Flow, p: nat, r: Return)
    requires Inv(s) && p < |s.ports|
    requires r.monitor == s.ports[p].monitor.(allowed := r.monitor.allowed, usage := r.monitor.usage)
    ensures Inv(DoTell(s, p, r)) && DoTell(s, p, r).failed == s.failed
  {
    hide Inv, Told;
    FlagsKeep(s, p, s.ports[p].(monitor := r.monitor), Told(s.notices, p, r.allow));
  }

  lemma NoticeKeeps(s: Flow, i: nat)
    requires Inv(s) && i < |s.notices|
    ensures Inv(DoNotice(s, i)) && DoNotice(s, i).failed == s.failed
  {
    hide Inv, Remove;
    var rest := Remove(s.notices, i);
    var p := s.notices[i].port;
    if p < |s.ports| {
      match s.notices[i]
      case UsageNotice(_, on) => FlagsKeep(s, p, s.ports[p].(useGlobal := on), rest);
      case FinishNotice(_) => FlagsKeep(s, p, s.ports[p].(hungUp := true), rest);
    } else {
      NoticesOnly(s, rest);
    }
  }

  lemma ReturnGlobalKeeps(s: Flow, target: BufferSize)
    requires Inv(s)
    ensures Inv(Next(s, ReturnGlobal(target))) && Next(s, ReturnGlobal(target)).failed == s.failed
  {
    var s' := Next(s, ReturnGlobal(target));
    if s' != s {
      var r := ReturnToRemote(s.pool, target).value;
      if r.1.Some? {
        SumAppend(s.globalReturns, r.1.value.credits, Itself());
      }
      forall p | 0 <= p < |s.ports|
        ensures PortOk(s', p)
      {
        assert PortOk(s, p);
      }
    }
  }

  lemma GlobalReturnKeeps(s: Flow, i: nat)
    requires Inv(s)
    ensures Inv(Next(s, GlobalReturnArrives(i))) && Next(s, GlobalReturnArrives(i)).failed == s.failed
  {
    hide DoRequest, DoPay, DoArrive, DoConsume, DoDropReceiver, DoPortReturn, ReturnToRemote, SetAllowed, Inhibit,
      Drain, Sum, Paid, Counted;
    var s' := Next(s, GlobalReturnArrives(i));
    if i < |s.globalReturns| {
      SumRemove(s.globalReturns, i, Itself());
    }
    assert s'.ports == s.ports && s'.under == s.under && s'.portReturns == s.portReturns;
    forall p | 0 <= p < |s'.ports|
      ensures PortOk(s', p)
    {
      assert PortOk(s, p);
    }
  }

  /** The only step that can fail is the arrival that overflows the counter of an abandoned port. */
  predicate Overflowing(s: Flow, step: Step) {
    step.Arrive? && step.i < |s.under| && s.under[step.i].port < |s.ports| && Overflows(s, step.i)
  }

  lemma StepKeeps(s: Flow, step: Step)
    requires Inv(s)
    ensures Inv(Next(s, step)) && (Next(s, step).failed <==> s.failed || Overflowing(s, step))
  {
    hide Inv, DoRequest, DoPay, DoArrive, DoConsume, DoDropReceiver, DoPortReturn, ReturnToRemote, SetAllowed,
      Inhibit, Drain, Overflows, DoTell, DoNotice, MayRequest;
    if !s.failed {
      match step
      case OpenPort(limit, throttle) => OpenKeeps(s, limit, throttle);
      case Request(p, pool, req, minReq) =>
        if p < |s.ports| && MayRequest(s.ports[p], pool) {
          RequestKeeps(s, p, pool, req, minReq);
          NotFailing(s, p, pool, req, minReq);
        }
      case GiveBack(p) => if p < |s.ports| { GiveBackKeeps(s, p); }
      case SendData(p, size) =>
        if p < |s.ports| && Max(size, 1) <= Available(s.ports[p].held) {
          ChargeMatchesPayment(s.ports[p].held, size);
          SendKeeps(s, p, Max(size, 1), DataMsg(p, size, Label(Drain(s.ports[p].held, Max(size, 1)).1)));
          PayNotFailing(s, p, Max(size, 1), Some(DataMsg(p, size, Label(Drain(s.ports[p].held, Max(size, 1)).1))));
        }
      case SendPorts(p, count) =>
        if p < |s.ports| && 4 * count <= Available(s.ports[p].held) && Sum(s.ports[p].held, GlobalPart()) == 0 {
          SendKeeps(s, p, 4 * count, PortsMsg(p, count));
          PayNotFailing(s, p, 4 * count, Some(PortsMsg(p, count)));
        }
      case Abandon(p, size) =>
        if p < |s.ports| && Max(size, 1) <= Available(s.ports[p].held) {
          AbandonKeeps(s, p, Max(size, 1));
          PayNotFailing(s, p, Max(size, 1), None);
        }
      case Arrive(i) => if i < |s.under| { ArriveKeeps(s, i); ArrivalKnown(s, i); }
      case Consume(p) => if p < |s.ports| && s.ports[p].unread != [] { ConsumeKeeps(s, p); }
      case DropReceiver(p) => if p < |s.ports| { DropReceiverKeeps(s, p); }
      case LoseReturn(i) => if i < |s.portReturns| { LoseReturnKeeps(s, i); }
      case PortReturnArrives(i) => if i < |s.portReturns| { PortReturnKeeps(s, i); }
      case HandleDrop(p) =>
        if p < |s.ports| && s.ports[p].receiverGone && !s.ports[p].dropHandled {
          FlagsKeep(s, p, s.ports[p].(dropHandled := true), s.notices + [FinishNotice(p)]);
        }
      case SetGlobalAllowed(p, allowed) =>
        if p < |s.ports| && !s.ports[p].receiverGone {
          UsageOnly(s.ports[p].monitor, allowed);
          TellKeeps(s, p, SetAllowed(s.ports[p].monitor, allowed));
        }
      case SendInhibit(p) =>
        if p < |s.ports| {
          UsageOnly(s.ports[p].monitor, true);
          TellKeeps(s, p, Inhibit(s.ports[p].monitor));
        }
      case NoticeArrives(i) => if i < |s.notices| { NoticeKeeps(s, i); }
      case LoseNotice(i) => if i < |s.notices| { NoticesOnly(s, Remove(s.notices, i)); }
      case ReturnGlobal(target) => ReturnGlobalKeeps(s, target);
      case GlobalReturnArrives(i) => GlobalReturnKeeps(s, i);
    }
  }

  lemma ArrivalKnown(s: Flow, i: nat)
    requires Inv(s) && i < |s.under|
    ensures s.under[i].port < |s.ports|
  {
  }

  lemma NotFailing(s: Flow, p: nat, pool: Pool, req: nat, minReq: nat)
    requires p < |s.ports|
    ensures DoRequest(s, p, pool, req, minReq).failed == s.failed
  {
  }

  lemma PayNotFailing(s: Flow, p: nat, n: nat, m: Option<Message>)
    requires p < |s.ports|
    ensures DoPay(s, p, n, m).failed == s.failed
  {
  }

  lemma UsageOnly(m: Monitor, allowed: bool)
    ensures var r := SetAllowed(m, allowed).monitor; r == m.(allowed := r.allowed, usage := r.usage)
    ensures var r := Inhibit(m).monitor; r == m.(allowed := r.allowed, usage := r.usage)
  {
  }

  lemma {:induction false} RunInv(pool: Global, steps: seq<Step>)
    requires Fresh(pool)
    ensures Inv(Run(pool, steps))
  {
    hide Inv, Next;
    if steps == [] {
      InitialInv(pool);
    } else {
      RunInv(pool, steps[..|steps| - 1]);
      StepKeeps(Run(pool, steps[..|steps| - 1]), steps[|steps| - 1]);
    }
  }

  // ---------------------------------------------------------------------------
  // Every run
  // ---------------------------------------------------------------------------

  predicate Fresh(pool: Global) {
    pool.total < U32_BOUND && pool.used == 0 && pool.toReturn == 0
  }

  /** No credit is ever created or lost, on any port or in the shared pool. */
  lemma Conservation(pool: Global, steps: seq<Step>, p: nat)
    requires Fresh(pool)
    ensures var s := Run(pool, steps);
            && GlobalTotal(s) == s.pool.total < U32_BOUND
            && (p < |s.ports| ==> PortTotal(s, p) == s.ports[p].monitor.limit < U32_BOUND)
  {
    hide Run;
    RunInv(pool, steps);
    var s := Run(pool, steps);
    assert p < |s.ports| ==> PortOk(s, p);
  }

  /** Of all checks of both sides, one can be missed: the counter of a port whose receiver is gone. */
  lemma FailsExactlyOnOverflow(pool: Global, steps: seq<Step>, step: Step)
    requires Fresh(pool)
    ensures var s := Run(pool, steps); Next(s, step).failed <==> s.failed || Overflowing(s, step)
  {
    RunInv(pool, steps);
    StepKeeps(Run(pool, steps), step);
  }

  predicate NoneGone(s: Flow) {
    !s.failed && forall p | 0 <= p < |s.ports| :: !s.ports[p].receiverGone
  }

  /** As long as no receiver is dropped nothing fails. */
  lemma {:induction false} NeverFailsWithReceivers(pool: Global, steps: seq<Step>)
    requires Fresh(pool) && forall i | 0 <= i < |steps| :: !steps[i].DropReceiver?
    ensures NoneGone(Run(pool, steps))
  {
    hide Next, Inv;
    if steps != [] {
      var before, step := steps[..|steps| - 1], steps[|steps| - 1];
      NeverFailsWithReceivers(pool, before);
      FailsExactlyOnOverflow(pool, before, step);
      NoneGoneKept(Run(pool, before), step);
    }
  }

  lemma NoneGoneKept(s: Flow, step: Step)
    requires NoneGone(s) && !step.DropReceiver?
    ensures forall p | 0 <= p < |Next(s, step).ports| :: !Next(s, step).ports[p].receiverGone
  {
    hide ReturnToRemote, SetAllowed, Inhibit, Drain, StartReturn, UseCredits, UseGlobal, DropGlobal, Sum, Paid, Label,
      Grant, Available;
  }

  /** All data has been consumed, every return delivered, nothing is assigned or abandoned. */
  predicate Settled(s: Flow, p: nat) {
    && p < |s.ports| && !s.ports[p].receiverGone && s.ports[p].monitor.limit >= 4
    && s.ports[p].abandoned == 0 && s.ports[p].held == [] && s.ports[p].unread == []
    && Sum(s.under, PortShare(p)) == 0 && Sum(s.portReturns, ReturnShare(p)) == 0
  }

  /** A settled sender always has the four credits that passing on one port takes. */
  lemma NeverStarves(pool: Global, steps: seq<Step>, p: nat)
    requires Fresh(pool)
    ensures Settled(Run(pool, steps), p) ==> Run(pool, steps).ports[p].store >= 4
  {
    hide Run;
    RunInv(pool, steps);
    if Settled(Run(pool, steps), p) {
      assert PortOk(Run(pool, steps), p);
    }
  }

  /** Before anything is sent: one port, its receiver gone. */
  function Dropped(pool: Global): Flow {
    Initial(pool).(ports := [PortFlow(4, [], 0, true, false, NewMonitor(4, 0xFFFF_FFFF), [], Split(0, 0), true, false)])
  }

  lemma DropFirst(pool: Global)
    requires pool == Global(0xFFFF_FFFF, 0, 0, 1, 0)
    ensures Next(Next(Initial(pool), OpenPort(4, 0xFFFF_FFFF)), DropReceiver(0)) == Dropped(pool)
  {
    hide DoRequest, DoPay, DoArrive, DoConsume, DoPortReturn, ReturnToRemote, SetAllowed, Inhibit, Drain;
    var f := PortFlow(4, [], 0, true, false, NewMonitor(4, 0xFFFF_FFFF), [], Split(0, 0), false, false);
    var s := Initial(pool).(ports := [f]);
    assert Next(Initial(pool), OpenPort(4, 0xFFFF_FFFF)) == s;
    assert DoDropReceiver(s, 0).ports == [f.(receiverGone := true)];
  }

  /** Half of all credits are taken and sent at once. */
  predicate CanSpend(s: Flow) {
    && !s.failed && |s.ports| == 1 && MayRequest(s.ports[0], GlobalPool) && s.ports[0].held == []
         && s.globalStore >= 0x8000_0000 && s.under == []
  }

  function Spent(s: Flow): Flow
    requires CanSpend(s)
  {
    s.(globalStore := s.globalStore - 0x8000_0000, under := [DataMsg(0, 0x8000_0000, GlobalOnly)])
  }

  lemma SpendHalf(s: Flow)
    requires CanSpend(s)
    ensures Next(Next(s, Request(0, GlobalPool, 0x8000_0000, 1)), SendData(0, 0x8000_0000)) == Spent(s)
  {
    hide DoArrive, DoConsume, DoPortReturn, DoDropReceiver, ReturnToRemote, SetAllowed, Inhibit, Drain, Available, Sum;
    var es := [Assigned(GlobalPool, 0x8000_0000)];
    var s' := s.(ports := [s.ports[0].(held := es)], globalStore := s.globalStore - 0x8000_0000);
    assert Grant(s.globalStore, 0x8000_0000, 1) == 0x8000_0000;
    assert s.ports[0].held + es == es;
    assert DoRequest(s, 0, GlobalPool, 0x8000_0000, 1).ports[0] == s'.ports[0];
    assert DoRequest(s, 0, GlobalPool, 0x8000_0000, 1).ports == s'.ports;
    assert Next(s, Request(0, GlobalPool, 0x8000_0000, 1)) == s';
    DrainAll(es, 0x8000_0000);
    var m := DataMsg(0, 0x8000_0000, GlobalOnly);
    assert DoPay(s', 0, 0x8000_0000, Some(m)).ports == s.ports;
    assert s.under + [m] == [m];
  }

  lemma DrainAll(es: seq<Assigned>, n: nat)
    requires n > 0 && es == [Assigned(GlobalPool, n)]
    ensures Available(es) == n && Drain(es, n) == ([], Split(0, n))
  {
    assert es[1..] == [];
    assert Sum(es, PortPart()) == PortPart()(es[0]) + Sum(es[1..], PortPart());
    assert Sum(es, GlobalPart()) == GlobalPart()(es[0]) + Sum(es[1..], GlobalPart());
  }

  /** The port counts the data for ever; the pool has it back for return. */
  function Counting(s: Flow): Flow
    requires CanSpend(s)
  {
    var f := s.ports[0];
    Spent(s).(
    under := [],
    pool := s.pool.(toReturn := 0x8000_0000),
    ports := [f.(lost := Split(f.lost.port, f.lost.global + 0x8000_0000),
                 monitor := f.monitor.(globalUsed := 0x8000_0000))])
  }

  predicate Idle(s: Flow) {
    && CanSpend(s) && s.ports[0].receiverGone && s.ports[0].monitor.portUsed == 0
    && s.ports[0].monitor.throttle == 0xFFFF_FFFF
    && s.pool.used == 0 && s.pool.toReturn == 0 && s.pool.total == 0xFFFF_FFFF
  }

  lemma ArriveGone(s: Flow)
    requires Idle(s)
    ensures s.ports[0].monitor.globalUsed == 0 ==> Next(Spent(s), Arrive(0)) == Counting(s)
    ensures s.ports[0].monitor.globalUsed >= 0x8000_0000 ==> Next(Spent(s), Arrive(0)) == Fail(Spent(s))
  {
    hide DoRequest, DoPay, DoConsume, DoPortReturn, DoDropReceiver, ReturnToRemote, SetAllowed, Inhibit, Drain, Sum;
    var t := Spent(s);
    var pool := s.pool.(used := 0x8000_0000);
    assert Remove(t.under, 0) == [];
    assert Paid(t.under[0]) == Split(0, 0x8000_0000);
    assert UseGlobal(s.pool, 0x8000_0000) == Some(pool);
    assert DropGlobal(pool, 0x8000_0000) == Some(s.pool.(toReturn := 0x8000_0000));
    assert s.ports[0].monitor.globalUsed == 0 ==> Next(t, Arrive(0)).ports == Counting(s).ports;
  }

  lemma GetBack(s: Flow)
    requires !s.failed && s.pool == Global(0xFFFF_FFFF, 0, 0x8000_0000, 1, 0)
    requires s.globalReturns == [] && s.globalStore == 0x7FFF_FFFF
    ensures Next(Next(s, ReturnGlobal(BufferSize(0xFFFF_FFFF, 1, false))), GlobalReturnArrives(0))
         == s.(pool := s.pool.(toReturn := 0), globalStore := 0xFFFF_FFFF)
  {
    hide DoRequest, DoPay, DoConsume, DoPortReturn, DoDropReceiver, DoArrive, SetAllowed, Inhibit, Drain, Sum;
    var s' := s.(pool := s.pool.(toReturn := 0), globalReturns := [0x8000_0000]);
    assert s.globalReturns + [0x8000_0000] == [0x8000_0000];
    assert Next(s, ReturnGlobal(BufferSize(0xFFFF_FFFF, 1, false))) == s';
    assert Remove(s'.globalReturns, 0) == [];
  }

  /** The connection has failed although no notice is under way and the sender may still use shared credits. */
  predicate FailedUntold(s: Flow) {
    s.failed && s.notices == [] && |s.ports| == 1 && MayRequest(s.ports[0], GlobalPool)
  }

  lemma Overflowed(s: Flow)
    requires Idle(s) && s.notices == [] && s.ports[0].monitor.globalUsed >= 0x8000_0000
    ensures FailedUntold(Next(Spent(s), Arrive(0)))
  {
    hide Next;
    ArriveGone(s);
  }

  /**
   Half of all credits sent to a dropped receiver, returned, and sent again, overflow its
   counter. The sender obeys all it is told: nothing is, because the port never reaches its
   throttle and the multiplexer has not yet come to the drop.
   */
  lemma OverflowAfterDrop(pool: Global) returns (steps: seq<Step>)
    requires pool == Global(0xFFFF_FFFF, 0, 0, 1, 0)
    ensures FailedUntold(Run(pool, steps))
  {
    steps := [];
    assert Run(pool, steps) == Initial(pool);
    steps := AppendTwo(pool, steps, OpenPort(4, 0xFFFF_FFFF), DropReceiver(0));
    hide Run, Next, FailedUntold;
    DropFirst(pool);
    var s := Dropped(pool);
    steps := AppendTwo(pool, steps, Request(0, GlobalPool, 0x8000_0000, 1), SendData(0, 0x8000_0000));
    SpendHalf(s);
    steps := AppendOne(pool, steps, Arrive(0));
    ArriveGone(s);
    steps := AppendTwo(pool, steps, ReturnGlobal(BufferSize(0xFFFF_FFFF, 1, false)), GlobalReturnArrives(0));
    GetBack(Counting(s));
    var t := Counting(s).(pool := pool, globalStore := 0xFFFF_FFFF);
    steps := AppendTwo(pool, steps, Request(0, GlobalPool, 0x8000_0000, 1), SendData(0, 0x8000_0000));
    SpendHalf(t);
    steps := AppendOne(pool, steps, Arrive(0));
    Overflowed(t);
  }

  lemma AppendOne(pool: Global, steps: seq<Step>, step: Step) returns (more: seq<Step>)
    ensures Run(pool, more) == Next(Run(pool, steps), step)
  {
    more := steps + [step];
    assert more[..|more| - 1] == steps;
  }

  lemma AppendTwo(pool: Global, steps: seq<Step>, a: Step, b: Step) returns (more: seq<Step>)
    ensures Run(pool, more) == Next(Next(Run(pool, steps), a), b)
  {
    more := AppendOne(pool, steps, a);
    more := AppendOne(pool, more, b);
  }
}
