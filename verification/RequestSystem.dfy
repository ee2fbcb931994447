/**
 Connection requests between a client and a listener, over every run.

 Each request carries the serial number of its making (`id`). It is a history variable: the
 code knows requests by port number only, and the serial number tells successive users of a
 number apart.
 */
module RequestSystem {
  import opened Types
  import opened Sums

  /** A request by message of its own, or in a list of ports sent over a port; with its answer once there is one. */
  datatype Req = Req(n: u32, viaPort: bool, pre: bool, id: nat, accepted: bool) {
    /** Whether the client holds a connection credit for it. */
    predicate Paid() {
      !viaPort || pre
    }
  }

  /** What the client keeps under a port number of its own. */
  datatype Entry =
    | Connecting(id: nat, credit: bool)
    | PreConnected(id: nat, credit: bool)
    | Connected(id: nat)

  /**
   The client's credits and port table, and the places of requests: on their way to the server,
   held by the application, dropped with the rejection still to be queued, answered but not yet
   seen by the multiplexer, and with their answers on the way back. `guards` can still reject
   requests that were accepted tentatively.

   The rest is history: requests whose entry stopped waiting other than by their own answer
   (`lost`), whether an entry was freed before its answer (`early`), and whether a guard
   rejected a request whose entry was gone (`late`).
   */
  datatype State = State(
    queue: nat,
    credits: nat,
    table: map<u32, Entry>,
    serial: nat,
    toServer: seq<Req>,
    held: seq<Req>,
    dropped: seq<Req>,
    answered: seq<Req>,
    toClient: seq<Req>,
    outstanding: set<u32>,
    pool: nat,
    refused: bool,
    unknown: bool,
    panicked: bool,
    guards: seq<Req>,
    lost: set<nat>,
    early: bool,
    late: bool)

  datatype Step =
    | Ask(n: u32, viaPort: bool, pre: bool)
    | Receive
    | Answer(i: nat, accepted: bool)
    | AcceptTentatively(i: nat)
    | Drop(i: nat)
    | QueueRejection(i: nat)
    | Handle(i: nat)
    | Learn
    | Close(n: u32)
    | RejectByGuard(i: nat)

  // ---------------------------------------------------------------------------
  // Steps
  // ---------------------------------------------------------------------------

  predicate HasCredit(e: Entry) {
    !e.Connected? && e.credit
  }

  /** The client's multiplexer has an entry that an answer can be for. */
  predicate Expects(t: map<u32, Entry>, n: u32) {
    n in t && !t[n].Connected?
  }

  /** An answer is still awaited, or would still give a credit back. */
  predicate Waits(e: Entry) {
    e.Connecting? || HasCredit(e)
  }

  function IdIs(id: nat): Req -> nat {
    (r: Req) => if r.id == id then 1 else 0
  }

  function DoAsk(s: State, n: u32, viaPort: bool, pre: bool): State {
    var r := Req(n, viaPort, pre, s.serial, false);
    if n in s.table || (r.Paid() && s.credits == 0) then s
    else
      s.(table := s.table[n := if pre then PreConnected(s.serial, true) else Connecting(s.serial, !viaPort)],
         credits := if r.Paid() then s.credits - 1 else s.credits,
         serial := s.serial + 1,
         toServer := s.toServer + [r])
  }

  function DoReceive(s: State): State
    requires s.toServer != []
  {
    var r := s.toServer[0];
    if r.n in s.outstanding || (!r.viaPort && |s.outstanding + {r.n}| > s.queue) || (r.pre && s.pool == 0)
    then s.(refused := true)
    else
      s.(toServer := s.toServer[1..], outstanding := s.outstanding + {r.n}, held := s.held + [r],
         pool := if r.pre then s.pool - 1 else s.pool)
  }

  function DoHandle(s: State, i: nat): State
    requires i < |s.answered|
  {
    var r := s.answered[i];
    if r.n !in s.outstanding then s.(panicked := true)
    else
      s.(answered := Remove(s.answered, i), outstanding := s.outstanding - {r.n},
         pool := if r.pre then s.pool + 1 else s.pool, toClient := s.toClient + [r])
  }

  /** The entry after an answer: a pre-connected one stays, without its credit. */
  function Answered(t: map<u32, Entry>, n: u32, accepted: bool): map<u32, Entry>
    requires n in t
  {
    match t[n]
    case Connecting(id, _) => if accepted then t[n := Connected(id)] else t - {n}
    case PreConnected(id, _) => t[n := PreConnected(id, false)]
    case Connected(_) => t
  }

  function Given(e: Entry): set<nat> {
    if Waits(e) then {e.id} else {}
  }

  /** An answer goes to whatever entry there is under its number. */
  function Told(s: State, r: Req, accepted: bool): State {
    if !Expects(s.table, r.n) then s.(unknown := true)
    else
      var e := s.table[r.n];
      s.(table := Answered(s.table, r.n, accepted),
         credits := if HasCredit(e) then s.credits + 1 else s.credits,
         lost := if e.id != r.id then s.lost + Given(e) else s.lost)
  }

  function DoLearn(s: State): State
    requires s.toClient != []
  {
    Told(s, s.toClient[0], s.toClient[0].accepted).(toClient := s.toClient[1..])
  }

  /**
   The rejection by a guard follows the acceptance on the wire. It changes nothing at the
   server, so one step stands for making and delivering it.
   */
  predicate CanRejectByGuard(s: State, i: nat) {
    i < |s.guards| && Sum(s.answered, IdIs(s.guards[i].id)) == 0 && Sum(s.toClient, IdIs(s.guards[i].id)) == 0
  }

  function DoRejectByGuard(s: State, i: nat): State
    requires i < |s.guards|
  {
    var r := s.guards[i];
    Told(s, r, false).(guards := Remove(s.guards, i), late := s.late || !(r.n in s.table && s.table[r.n].id == r.id))
  }

  function DoAnswer(s: State, i: nat, accepted: bool): State
    requires i < |s.held|
  {
    s.(held := Remove(s.held, i), answered := s.answered + [s.held[i].(accepted := accepted)])
  }

  /**
   An entry is freed once both sides have dropped both halves of the port. The server's halves
   of an unanswered pre-connected request live in the request until it is dropped or answered.
   */
  predicate CanClose(s: State, n: u32) {
    n in s.table
    && match s.table[n]
       case Connecting(_, _) => false
       case PreConnected(id, credit) => credit ==> Sum(s.toServer, IdIs(id)) == 0 && Sum(s.held, IdIs(id)) == 0
       case Connected(_) => true
  }

  function DoClose(s: State, n: u32): State
    requires n in s.table
  {
    var credit := HasCredit(s.table[n]);
    s.(table := s.table - {n}, credits := if credit then s.credits + 1 else s.credits,
       lost := s.lost + Given(s.table[n]), early := s.early || credit)
  }

  predicate Running(s: State) {
    !s.refused && !s.unknown && !s.panicked
  }

  function Next(s: State, step: Step): State {
    if !Running(s) then s
    else
      match step
      case Ask(n, viaPort, pre) => DoAsk(s, n, viaPort, pre)
      case Receive => if s.toServer == [] then s else DoReceive(s)
      case Answer(i, accepted) => if i < |s.held| then DoAnswer(s, i, accepted) else s
      case AcceptTentatively(i) =>
        if i < |s.held| && s.held[i].pre
        then DoAnswer(s, i, true).(guards := s.guards + [s.held[i]]) else s
      case Drop(i) => if i < |s.held| then s.(held := Remove(s.held, i), dropped := s.dropped + [s.held[i]]) else s
      case QueueRejection(i) =>
        if i < |s.dropped|
        then s.(dropped := Remove(s.dropped, i), answered := s.answered + [s.dropped[i]]) else s
      case Handle(i) => if i < |s.answered| then DoHandle(s, i) else s
      case Learn => if s.toClient == [] then s else DoLearn(s)
      case Close(n) => if CanClose(s, n) then DoClose(s, n) else s
      case RejectByGuard(i) => if CanRejectByGuard(s, i) then DoRejectByGuard(s, i) else s
  }

  function Start(queue: nat): State {
    State(queue, queue, map[], 0, [], [], [], [], [], {}, queue, false, false, false, [], {}, false, false)
  }

  function Run(queue: nat, steps: seq<Step>): State {
    if steps == [] then Start(queue) else Next(Run(queue, steps[..|steps| - 1]), steps[|steps| - 1])
  }

  // ---------------------------------------------------------------------------
  // Counting
  // ---------------------------------------------------------------------------

  function NumberIs(n: u32): Req -> nat {
    (r: Req) => if r.n == n then 1 else 0
  }

  function IsPre(): Req -> nat {
    (r: Req) => if r.pre then 1 else 0
  }

  /** The entry under the request's number is its own. */
  predicate Owns(t: map<u32, Entry>, r: Req) {
    r.n in t && t[r.n].id == r.id
  }

  /** The client still holds a credit for the request. */
  predicate Credited(t: map<u32, Entry>, r: Req) {
    Owns(t, r) && HasCredit(t[r.n])
  }

  function IsCredited(t: map<u32, Entry>): Req -> nat {
    (r: Req) => if Credited(t, r) then 1 else 0
  }

  /** No entry of the client waits for the request's answer any more. */
  predicate Stray(t: map<u32, Entry>, r: Req) {
    !(Owns(t, r) && Waits(t[r.n]))
  }

  function AtServer(s: State, f: Req -> nat): nat {
    Sum(s.held, f) + Sum(s.dropped, f) + Sum(s.answered, f)
  }

  function OnWires(s: State, f: Req -> nat): nat {
    Sum(s.toServer, f) + Sum(s.toClient, f)
  }

  function Everywhere(s: State, f: Req -> nat): nat {
    AtServer(s, f) + OnWires(s, f)
  }

  // ---------------------------------------------------------------------------
  // The invariant
  // ---------------------------------------------------------------------------

  /** What the server keeps, whatever the client does. */
  predicate ServerOk(s: State) {
    && !s.panicked
    && (forall n: u32 :: AtServer(s, NumberIs(n)) == if n in s.outstanding then 1 else 0)
    && |s.outstanding| == |s.held| + |s.dropped| + |s.answered|
    && s.pool + AtServer(s, IsPre()) == s.queue
  }

  /** An entry with the request's serial number is the request's, and of its kind. */
  predicate Linked(t: map<u32, Entry>, r: Req) {
    && (forall n | n in t && t[n].id == r.id :: n == r.n)
    && (Owns(t, r) ==> match t[r.n]
                       case Connecting(_, credit) => !r.pre && credit == !r.viaPort
                       case PreConnected(_, _) => r.pre
                       case Connected(_) => !r.pre)
  }

  predicate AllLinked(t: map<u32, Entry>, q: seq<Req>) {
    forall i | 0 <= i < |q| :: Linked(t, q[i])
  }

  predicate NoneStray(t: map<u32, Entry>, q: seq<Req>) {
    forall i | 0 <= i < |q| :: !Stray(t, q[i])
  }

  predicate Links(s: State) {
    && AllLinked(s.table, s.toServer) && AllLinked(s.table, s.held) && AllLinked(s.table, s.dropped)
    && AllLinked(s.table, s.answered) && AllLinked(s.table, s.toClient)
  }

  predicate NoStrays(s: State) {
    && NoneStray(s.table, s.toServer) && NoneStray(s.table, s.held) && NoneStray(s.table, s.dropped)
    && NoneStray(s.table, s.answered) && NoneStray(s.table, s.toClient)
  }

  /** The stray requests are those in `lost`. */
  predicate Tracked(t: map<u32, Entry>, lost: set<nat>, q: seq<Req>) {
    forall i | 0 <= i < |q| :: Stray(t, q[i]) <==> q[i].id in lost
  }

  predicate AllTracked(s: State) {
    && Tracked(s.table, s.lost, s.toServer) && Tracked(s.table, s.lost, s.held) && Tracked(s.table, s.lost, s.dropped)
    && Tracked(s.table, s.lost, s.answered) && Tracked(s.table, s.lost, s.toClient)
  }

  /** Requests are only lost for a cause. */
  predicate LostOk(s: State) {
    && (forall x | x in s.lost :: x < s.serial)
    && (s.lost != {} || s.unknown ==> s.early || s.late)
    && (s.early ==> s.lost != {})
  }

  /** Where a request is that nobody has answered. */
  function Unanswered(s: State, f: Req -> nat): nat {
    Sum(s.toServer, f) + Sum(s.held, f) + Sum(s.dropped, f)
  }

  /** Guards belong to pre-connected requests that have been answered. */
  predicate GuardsOk(s: State) {
    && AllLinked(s.table, s.guards)
    && forall i | 0 <= i < |s.guards| ::
         s.guards[i].pre && s.guards[i].id < s.serial && Unanswered(s, IdIs(s.guards[i].id)) == 0
  }

  /** Every request is in one place; an entry with a credit has its request somewhere. */
  ghost predicate IdsOk(s: State) {
    && (forall x: nat :: Everywhere(s, IdIs(x)) <= 1 && (x >= s.serial ==> Everywhere(s, IdIs(x)) == 0))
    && (forall n | n in s.table :: s.table[n].id < s.serial
                                   && (HasCredit(s.table[n]) ==> Everywhere(s, IdIs(s.table[n].id)) == 1))
  }

  /** No credit is created or lost: it is at hand or held for one request. */
  predicate CreditsOk(s: State) {
    s.credits + Everywhere(s, IsCredited(s.table)) == s.queue
  }

  ghost predicate Core(s: State) {
    ServerOk(s) && Links(s) && IdsOk(s) && CreditsOk(s) && AllTracked(s) && LostOk(s)
  }

  ghost predicate Inv(s: State) {
    Core(s) && GuardsOk(s)
  }

  // ---------------------------------------------------------------------------
  // Sums over queues
  // ---------------------------------------------------------------------------

  lemma FrontOff(q: seq<Req>, f: Req -> nat)
    requires q != []
    ensures Sum(q, f) == f(q[0]) + Sum(q[1..], f)
  {
  }

  lemma {:induction false} Found(q: seq<Req>, i: nat, f: Req -> nat)
    requires i < |q|
    ensures Sum(q, f) >= f(q[i])
    decreases |q|
  {
    if i > 0 {
      Found(q[1..], i - 1, f);
    }
  }

  lemma {:induction false} SumSame(q: seq<Req>, f: Req -> nat, g: Req -> nat)
    requires forall i | 0 <= i < |q| :: f(q[i]) == g(q[i])
    ensures Sum(q, f) == Sum(q, g)
    decreases |q|
  {
    if q != [] {
      SumSame(q[1..], f, g);
    }
  }

  lemma {:induction false} SumAtMost(q: seq<Req>, f: Req -> nat, g: Req -> nat)
    requires forall i | 0 <= i < |q| :: f(q[i]) <= g(q[i])
    ensures Sum(q, f) <= Sum(q, g)
    decreases |q|
  {
    if q != [] {
      SumAtMost(q[1..], f, g);
    }
  }

  /** Taking the credit from the entry under `n` uncredits the requests with its serial number. */
  lemma {:induction false} Uncredit(q: seq<Req>, t: map<u32, Entry>, t': map<u32, Entry>, n: u32)
    requires n in t && HasCredit(t[n]) && AllLinked(t, q)
    requires forall k | k != n :: (k in t' <==> k in t) && (k in t ==> t'[k] == t[k])
    requires n in t' ==> !HasCredit(t'[n])
    ensures Sum(q, IsCredited(t')) + Sum(q, IdIs(t[n].id)) == Sum(q, IsCredited(t))
    decreases |q|
  {
    if q != [] {
      assert Linked(t, q[0]);
      Uncredit(q[1..], t, t', n);
    }
  }

  /** A new entry concerns none of the requests that are there already. */
  lemma NewEntry(q: seq<Req>, t: map<u32, Entry>, n: u32, e: Entry)
    requires n !in t && Sum(q, IdIs(e.id)) == 0
    ensures Sum(q, IsCredited(t[n := e])) == Sum(q, IsCredited(t))
    ensures AllLinked(t, q) ==> AllLinked(t[n := e], q)
    ensures forall lost: set<nat> :: Tracked(t, lost, q) ==> Tracked(t[n := e], lost, q)
  {
    forall i | 0 <= i < |q|
      ensures q[i].id != e.id
    {
      Found(q, i, IdIs(e.id));
    }
    SumSame(q, IsCredited(t[n := e]), IsCredited(t));
  }

  // ---------------------------------------------------------------------------
  // What each step keeps
  // ---------------------------------------------------------------------------

  /** The server's part of the state is the same. */
  predicate ServerSame(s: State, s': State) {
    && s'.held == s.held && s'.dropped == s.dropped && s'.answered == s.answered
    && s'.outstanding == s.outstanding && s'.pool == s.pool && s'.queue == s.queue && s'.panicked == s.panicked
  }

  lemma ServerKept(s: State, s': State)
    requires ServerOk(s) && ServerSame(s, s')
    ensures ServerOk(s')
  {
    hide Sum;
    forall n: u32
      ensures AtServer(s', NumberIs(n)) == AtServer(s, NumberIs(n))
    {
    }
  }

  /** Requests only change places. */
  ghost predicate Moved(s: State, s': State) {
    && s'.table == s.table && s'.serial == s.serial && s'.credits == s.credits && s'.queue == s.queue
    && s'.early == s.early && s'.late == s.late && s'.unknown == s.unknown && s'.lost == s.lost
    && (forall x: nat :: Everywhere(s', IdIs(x)) == Everywhere(s, IdIs(x)))
    && Everywhere(s', IsCredited(s.table)) == Everywhere(s, IsCredited(s.table))
    && Links(s') && AllTracked(s')
  }

  lemma ClientKept(s: State, s': State)
    requires Core(s) && Moved(s, s') && ServerOk(s')
    ensures Core(s')
  {
    hide Everywhere, Links, AllTracked, ServerOk;
  }

  lemma AskKeeps(s: State, n: u32, viaPort: bool, pre: bool)
    requires Core(s)
    ensures Core(DoAsk(s, n, viaPort, pre))
  {
    var s' := DoAsk(s, n, viaPort, pre);
    if s' != s {
      var r := Req(n, viaPort, pre, s.serial, false);
      assert s'.table == s.table[n := s'.table[n]] && s'.table[n].id == s.serial;
      hide Links, AllTracked, ServerOk, CreditsOk;
      ServerKept(s, s');
      assert Everywhere(s, IdIs(s.serial)) == 0;
      AskedIds(s, s', r);
      AskedLinks(s, s', r);
      AskedCredits(s, s', r);
      hide IdsOk, Everywhere;
    }
  }

  lemma AskedCredits(s: State, s': State, r: Req)
    requires CreditsOk(s) && r.id == s.serial && r.n !in s.table && (r.Paid() ==> s.credits > 0)
    requires s' == s.(table := s'.table, credits := if r.Paid() then s.credits - 1 else s.credits,
            serial := s.serial + 1, toServer := s.toServer + [r])
    requires s'.table == s.table[r.n := if r.pre then PreConnected(r.id, true) else Connecting(r.id, !r.viaPort)]
    requires Everywhere(s, IdIs(r.id)) == 0
    ensures CreditsOk(s')
  {
    var e := s'.table[r.n];
    NewEntry(s.toServer, s.table, r.n, e);
    NewEntry(s.held, s.table, r.n, e);
    NewEntry(s.dropped, s.table, r.n, e);
    NewEntry(s.answered, s.table, r.n, e);
    NewEntry(s.toClient, s.table, r.n, e);
    SumAppend(s.toServer, r, IsCredited(s'.table));
    hide Sum, AllLinked, Tracked;
  }

  lemma AskedIds(s: State, s': State, r: Req)
    requires IdsOk(s) && r.id == s.serial && r.n !in s.table
    requires s' == s.(table := s'.table, credits := s'.credits, serial := s.serial + 1, toServer := s.toServer + [r])
    requires r.n in s'.table && s'.table == s.table[r.n := s'.table[r.n]] && s'.table[r.n].id == r.id
    ensures IdsOk(s')
  {
    hide Sum;
    forall x: nat
      ensures Everywhere(s', IdIs(x)) == Everywhere(s, IdIs(x)) + if x == r.id then 1 else 0
    {
      SumAppend(s.toServer, r, IdIs(x));
    }
    forall n | n in s'.table
      ensures s'.table[n].id < s'.serial && (HasCredit(s'.table[n]) ==> Everywhere(s', IdIs(s'.table[n].id)) == 1)
    {
      assert n != r.n ==> n in s.table && s'.table[n] == s.table[n];
    }
  }

  lemma AskedLinks(s: State, s': State, r: Req)
    requires Links(s) && AllTracked(s) && LostOk(s) && IdsOk(s) && r.id == s.serial && r.n !in s.table
    requires s' == s.(table := s'.table, credits := s'.credits, serial := s.serial + 1, toServer := s.toServer + [r])
    requires s'.table == s.table[r.n := if r.pre then PreConnected(r.id, true) else Connecting(r.id, !r.viaPort)]
    requires Everywhere(s, IdIs(r.id)) == 0
    ensures Links(s') && AllTracked(s')
  {
    var e := s'.table[r.n];
    NewEntry(s.toServer, s.table, r.n, e);
    NewEntry(s.held, s.table, r.n, e);
    NewEntry(s.dropped, s.table, r.n, e);
    NewEntry(s.answered, s.table, r.n, e);
    NewEntry(s.toClient, s.table, r.n, e);
    assert Linked(s'.table, r) && !Stray(s'.table, r);
    hide Linked, Stray;
  }

  // -- Receiving

  lemma FrontMoves(t: map<u32, Entry>, lost: set<nat>, from: seq<Req>, to: seq<Req>)
    requires from != [] && AllLinked(t, from) && AllLinked(t, to) && Tracked(t, lost, from) && Tracked(t, lost, to)
    ensures AllLinked(t, from[1..]) && AllLinked(t, to + [from[0]])
    ensures Tracked(t, lost, from[1..]) && Tracked(t, lost, to + [from[0]])
  {
    hide Linked, Stray;
  }

  lemma ReceiveMoves(s: State)
    requires Core(s) && s.toServer != [] && !DoReceive(s).refused
    ensures Moved(s, DoReceive(s))
  {
    var s', r := DoReceive(s), s.toServer[0];
    FrontMoves(s.table, s.lost, s.toServer, s.held);
    hide AllLinked, Tracked, ServerOk, IdsOk, CreditsOk;
    forall f: Req -> nat
      ensures Everywhere(s', f) == Everywhere(s, f)
    {
      FrontOff(s.toServer, f);
      SumAppend(s.held, r, f);
    }
    hide Everywhere;
  }

  lemma AdmittedServer(s: State)
    requires ServerOk(s) && s.toServer != [] && !DoReceive(s).refused
    ensures ServerOk(DoReceive(s))
  {
    var s', r := DoReceive(s), s.toServer[0];
    SumAppend(s.held, r, IsPre());
    forall n: u32
      ensures AtServer(s', NumberIs(n)) == if n in s'.outstanding then 1 else 0
    {
      AdmittedNumber(s, n);
    }
    hide Sum;
    assert |s.outstanding + {r.n}| == |s.outstanding| + 1;
  }

  lemma AdmittedNumber(s: State, n: u32)
    requires ServerOk(s) && s.toServer != [] && !DoReceive(s).refused
    ensures AtServer(DoReceive(s), NumberIs(n)) == if n in DoReceive(s).outstanding then 1 else 0
  {
    assert AtServer(s, NumberIs(n)) == if n in s.outstanding then 1 else 0;
    SumAppend(s.held, s.toServer[0], NumberIs(n));
    hide Sum, ServerOk;
  }

  lemma ReceiveKeeps(s: State)
    requires Core(s) && s.toServer != [] && !s.refused
    ensures Core(DoReceive(s))
  {
    hide Core;
    var s' := DoReceive(s);
    if s'.refused {
      Frozen(s, s.(refused := true));
      Frozen(s, s);
    } else {
      assert ServerOk(s) by { CoreParts(s); }
      AdmittedServer(s);
      ReceiveMoves(s);
      ClientKept(s, s');
    }
  }

  lemma CoreParts(s: State)
    requires Core(s)
    ensures ServerOk(s) && Links(s) && IdsOk(s) && CreditsOk(s)
  {
  }

  /** The flag that ends the connection changes nothing else. */
  lemma Frozen(s: State, s': State)
    requires Core(s) && s' == s.(refused := s'.refused)
    ensures Core(s')
  {
    ServerKept(s, s');
    forall f: Req -> nat
      ensures Everywhere(s', f) == Everywhere(s, f)
    {
    }
    hide Everywhere, AllLinked, Tracked, ServerOk;
    ClientKept(s, s');
  }

  // -- Moving within the server

  lemma MovedSums(from: seq<Req>, i: nat, to: seq<Req>, r: Req, f: Req -> nat)
    requires i < |from| && f(r) == f(from[i])
    ensures Sum(Remove(from, i), f) + Sum(to + [r], f) == Sum(from, f) + Sum(to, f)
  {
    SumRemove(from, i, f);
    SumAppend(to, r, f);
  }

  lemma MovedLinks(t: map<u32, Entry>, lost: set<nat>, from: seq<Req>, i: nat, to: seq<Req>, r: Req)
    requires i < |from| && r == from[i].(accepted := r.accepted)
    requires AllLinked(t, from) && AllLinked(t, to) && Tracked(t, lost, from) && Tracked(t, lost, to)
    ensures AllLinked(t, Remove(from, i)) && AllLinked(t, to + [r])
    ensures Tracked(t, lost, Remove(from, i)) && Tracked(t, lost, to + [r])
  {
    assert Linked(t, from[i]);
    assert Linked(t, r);
    assert Stray(t, r) == Stray(t, from[i]);
    hide Linked, Stray;
  }

  /** A step that takes a request from one place at the server to another. */
  lemma ServerMove(s: State, s': State)
    requires Core(s) && s'.outstanding == s.outstanding && s'.pool == s.pool && s'.panicked == s.panicked
    requires s' == s.(held := s'.held, dropped := s'.dropped, answered := s'.answered)
    requires |s'.held| + |s'.dropped| + |s'.answered| == |s.held| + |s.dropped| + |s.answered|
    requires forall n: u32 :: AtServer(s', NumberIs(n)) == AtServer(s, NumberIs(n))
    requires forall x: nat :: AtServer(s', IdIs(x)) == AtServer(s, IdIs(x))
    requires AtServer(s', IsPre()) == AtServer(s, IsPre())
    requires AtServer(s', IsCredited(s.table)) == AtServer(s, IsCredited(s.table))
    requires Links(s') && AllTracked(s')
    ensures Core(s')
  {
    hide AtServer, Links, AllTracked;
    ClientKept(s, s');
  }

  /** The sums over the server's places do not notice that a request has moved. */
  lemma AnsweredSums(s: State, i: nat, accepted: bool, f: Req -> nat)
    requires i < |s.held| && f(s.held[i].(accepted := accepted)) == f(s.held[i])
    ensures AtServer(DoAnswer(s, i, accepted), f) == AtServer(s, f)
  {
    MovedSums(s.held, i, s.answered, s.held[i].(accepted := accepted), f);
    hide Sum;
  }

  lemma AnswerKeeps(s: State, i: nat, accepted: bool)
    requires Core(s) && i < |s.held|
    ensures Core(DoAnswer(s, i, accepted))
  {
    var s' := DoAnswer(s, i, accepted);
    forall n: u32
      ensures AtServer(s', NumberIs(n)) == AtServer(s, NumberIs(n))
    {
      AnsweredSums(s, i, accepted, NumberIs(n));
    }
    forall x: nat
      ensures AtServer(s', IdIs(x)) == AtServer(s, IdIs(x))
    {
      AnsweredSums(s, i, accepted, IdIs(x));
    }
    AnsweredSums(s, i, accepted, IsPre());
    AnsweredSums(s, i, accepted, IsCredited(s.table));
    MovedLinks(s.table, s.lost, s.held, i, s.answered, s.held[i].(accepted := accepted));
    hide AllLinked, Tracked, Sum, AtServer, ServerOk, IdsOk, CreditsOk, LostOk;
    ServerMove(s, s');
  }

  lemma DropKeeps(s: State, i: nat)
    requires Core(s) && i < |s.held|
    ensures Core(s.(held := Remove(s.held, i), dropped := s.dropped + [s.held[i]]))
  {
    var r := s.held[i];
    var s' := s.(held := Remove(s.held, i), dropped := s.dropped + [r]);
    forall n: u32
      ensures AtServer(s', NumberIs(n)) == AtServer(s, NumberIs(n))
    {
      MovedSums(s.held, i, s.dropped, r, NumberIs(n));
    }
    forall x: nat
      ensures AtServer(s', IdIs(x)) == AtServer(s, IdIs(x))
    {
      MovedSums(s.held, i, s.dropped, r, IdIs(x));
    }
    MovedSums(s.held, i, s.dropped, r, IsPre());
    MovedSums(s.held, i, s.dropped, r, IsCredited(s.table));
    MovedLinks(s.table, s.lost, s.held, i, s.dropped, r);
    hide AllLinked, Tracked, Sum;
    ServerMove(s, s');
  }

  lemma QueueRejectionKeeps(s: State, i: nat)
    requires Core(s) && i < |s.dropped|
    ensures Core(s.(dropped := Remove(s.dropped, i), answered := s.answered + [s.dropped[i]]))
  {
    var r := s.dropped[i];
    var s' := s.(dropped := Remove(s.dropped, i), answered := s.answered + [r]);
    forall n: u32
      ensures AtServer(s', NumberIs(n)) == AtServer(s, NumberIs(n))
    {
      MovedSums(s.dropped, i, s.answered, r, NumberIs(n));
    }
    forall x: nat
      ensures AtServer(s', IdIs(x)) == AtServer(s, IdIs(x))
    {
      MovedSums(s.dropped, i, s.answered, r, IdIs(x));
    }
    MovedSums(s.dropped, i, s.answered, r, IsPre());
    MovedSums(s.dropped, i, s.answered, r, IsCredited(s.table));
    MovedLinks(s.table, s.lost, s.dropped, i, s.answered, r);
    hide AllLinked, Tracked, Sum;
    ServerMove(s, s');
  }

  // -- Handling an answer at the server

  /** Every answer finds its request outstanding. */
  lemma AnswerFound(s: State, i: nat)
    requires ServerOk(s) && i < |s.answered|
    ensures s.answered[i].n in s.outstanding
  {
    Found(s.answered, i, NumberIs(s.answered[i].n));
    assert AtServer(s, NumberIs(s.answered[i].n)) >= 1;
  }

  lemma HandledServer(s: State, i: nat)
    requires ServerOk(s) && i < |s.answered|
    ensures ServerOk(DoHandle(s, i))
  {
    AnswerFound(s, i);
    var s', r := DoHandle(s, i), s.answered[i];
    SumRemove(s.answered, i, IsPre());
    forall n: u32
      ensures AtServer(s', NumberIs(n)) == if n in s'.outstanding then 1 else 0
    {
      assert AtServer(s, NumberIs(n)) == if n in s.outstanding then 1 else 0;
      SumRemove(s.answered, i, NumberIs(n));
    }
  }

  lemma HandleKeeps(s: State, i: nat)
    requires Core(s) && i < |s.answered|
    ensures Core(DoHandle(s, i))
  {
    AnswerFound(s, i);
    HandledServer(s, i);
    var s', r := DoHandle(s, i), s.answered[i];
    forall f: Req -> nat
      ensures Everywhere(s', f) == Everywhere(s, f)
    {
      MovedSums(s.answered, i, s.toClient, r, f);
    }
    MovedLinks(s.table, s.lost, s.answered, i, s.toClient, r);
    hide Everywhere, AllLinked, Tracked, ServerOk;
    ClientKept(s, s');
  }

  // -- The client's table

  /** The entry under `n` is gone, or no longer waits for anything and has no credit. */
  ghost predicate Settled(t: map<u32, Entry>, t': map<u32, Entry>, n: u32) {
    && n in t
    && (forall k | k != n :: (k in t' <==> k in t) && (k in t ==> t'[k] == t[k]))
    && (n in t' ==> t'[n].id == t[n].id && !Waits(t'[n]) && (t'[n].PreConnected? <==> t[n].PreConnected?))
  }

  lemma SettledTracked(q: seq<Req>, t: map<u32, Entry>, t': map<u32, Entry>, n: u32, lost: set<nat>)
    requires Settled(t, t', n) && AllLinked(t, q) && Tracked(t, lost, q)
    ensures Tracked(t', lost + Given(t[n]), q)
    ensures Sum(q, IdIs(t[n].id)) == 0 ==> Tracked(t', lost, q)
  {
    forall i | 0 <= i < |q|
      ensures Stray(t', q[i]) <==> q[i].id in lost + Given(t[n])
      ensures Sum(q, IdIs(t[n].id)) == 0 ==> (Stray(t', q[i]) <==> q[i].id in lost)
    {
      Found(q, i, IdIs(t[n].id));
      assert Linked(t, q[i]) && (Stray(t, q[i]) <==> q[i].id in lost);
    }
  }

  lemma SettledLinks(q: seq<Req>, t: map<u32, Entry>, t': map<u32, Entry>, n: u32, lost: set<nat>)
    requires Settled(t, t', n) && AllLinked(t, q)
    ensures AllLinked(t', q)
    ensures Tracked(t, lost, q) ==> Tracked(t', lost + Given(t[n]), q)
    ensures Tracked(t, lost, q) && Sum(q, IdIs(t[n].id)) == 0 ==> Tracked(t', lost, q)
    ensures !HasCredit(t[n]) ==> Sum(q, IsCredited(t')) == Sum(q, IsCredited(t))
    ensures HasCredit(t[n]) ==> Sum(q, IsCredited(t')) + Sum(q, IdIs(t[n].id)) == Sum(q, IsCredited(t))
  {
    forall i | 0 <= i < |q|
      ensures Linked(t', q[i])
    {
      assert Linked(t, q[i]);
    }
    if Tracked(t, lost, q) {
      SettledTracked(q, t, t', n, lost);
    }
    if HasCredit(t[n]) {
      Uncredit(q, t, t', n);
    } else {
      SumSame(q, IsCredited(t'), IsCredited(t));
    }
  }

  /** Entries other than the one under `n` keep their requests where they are. */
  lemma SettledIds(s: State, s': State, n: u32)
    requires IdsOk(s) && Settled(s.table, s'.table, n) && s'.serial == s.serial
    requires forall x: nat :: Everywhere(s', IdIs(x)) <= Everywhere(s, IdIs(x))
    requires forall k | k in s.table && k != n && HasCredit(s.table[k]) ::
               Everywhere(s', IdIs(s.table[k].id)) == Everywhere(s, IdIs(s.table[k].id))
    ensures IdsOk(s')
  {
    hide Everywhere;
    forall k | k in s'.table
      ensures s'.table[k].id < s'.serial && (HasCredit(s'.table[k]) ==> Everywhere(s', IdIs(s'.table[k].id)) == 1)
    {
      assert k in s.table;
    }
  }

  /** An entry stops waiting while every request stays where it is. */
  lemma EntrySettled(s: State, s': State, n: u32)
    requires Core(s) && n in s.table && Settled(s.table, s'.table, n) && LostOk(s')
    requires s' == s.(table := s'.table, credits := s'.credits, lost := s.lost + Given(s.table[n]),
                      early := s'.early, late := s'.late, guards := s'.guards)
    requires s'.credits == if HasCredit(s.table[n]) then s.credits + 1 else s.credits
    ensures Core(s')
  {
    hide Sum, AllLinked, Tracked, ServerOk, Settled, Given, LostOk;
    var t := s.table;
    ServerKept(s, s');
    SettledLinks(s.toServer, t, s'.table, n, s.lost);
    SettledLinks(s.held, t, s'.table, n, s.lost);
    SettledLinks(s.dropped, t, s'.table, n, s.lost);
    SettledLinks(s.answered, t, s'.table, n, s.lost);
    SettledLinks(s.toClient, t, s'.table, n, s.lost);
    SettledIds(s, s', n);
  }

  lemma CloseKeeps(s: State, n: u32)
    requires Core(s) && CanClose(s, n)
    ensures Core(DoClose(s, n))
  {
    InTable(s, n);
    CloseLost(s, n);
    hide Sum, AllLinked, Tracked, ServerOk, Links, AllTracked, CreditsOk, IdsOk, LostOk, Given, CanClose, HasCredit;
    EntrySettled(s, DoClose(s, n), n);
  }

  lemma CloseLost(s: State, n: u32)
    requires LostOk(s) && CanClose(s, n) && s.table[n].id < s.serial
    ensures LostOk(DoClose(s, n))
  {
    hide Sum;
  }

  /** The entry of a request whose answer has been learnt waits for nothing more. */
  lemma GuardEntry(s: State, i: nat)
    requires Core(s) && GuardsOk(s) && CanRejectByGuard(s, i) && Owns(s.table, s.guards[i])
    ensures var n := s.guards[i].n;
            s.table[n].PreConnected? && !Waits(s.table[n]) && Answered(s.table, n, false) == s.table
  {
    var r := s.guards[i];
    assert Linked(s.table, r);
    assert Everywhere(s, IdIs(r.id)) == Unanswered(s, IdIs(r.id));
    hide Sum, AllLinked, Tracked, ServerOk, Links, AllTracked, CreditsOk;
    assert s.table[r.n] == PreConnected(r.id, false);
  }

  lemma RejectByGuardKeeps(s: State, i: nat)
    requires Core(s) && GuardsOk(s) && CanRejectByGuard(s, i)
    ensures Core(DoRejectByGuard(s, i))
  {
    var s', r := DoRejectByGuard(s, i), s.guards[i];
    RejectByGuardLost(s, i);
    hide Sum, AllLinked, Tracked, ServerOk, Links, AllTracked, CreditsOk, Settled, IdsOk, GuardsOk, Answered, LostOk,
      Given, CanRejectByGuard;
    if Expects(s.table, r.n) {
      ToldSettles(s.table, r.n, false);
      EntrySettled(s, s', r.n);
    } else {
      SidesOnly(s, s');
    }
  }

  /** A guard's rejection costs another request its answer only after the guard's own entry has gone. */
  lemma RejectByGuardLost(s: State, i: nat)
    requires Core(s) && GuardsOk(s) && CanRejectByGuard(s, i)
    ensures var s', n := DoRejectByGuard(s, i), s.guards[i].n;
            LostOk(s') && (Expects(s.table, n) ==> s'.lost == s.lost + Given(s.table[n]))
  {
    var n := s.guards[i].n;
    if Owns(s.table, s.guards[i]) {
      GuardEntry(s, i);
    }
    if n in s.table {
      InTable(s, n);
    }
    hide Sum, AllLinked, Tracked, ServerOk, Links, AllTracked, CreditsOk, IdsOk, GuardsOk, Answered, CanRejectByGuard;
  }

  lemma InTable(s: State, n: u32)
    requires IdsOk(s) && n in s.table
    ensures s.table[n].id < s.serial
  {
  }

  /** Guards, flags and causes are no part of the books. */
  lemma SidesOnly(s: State, s': State)
    requires Core(s) && LostOk(s')
    requires s' == s.(unknown := s'.unknown, guards := s'.guards, early := s'.early, late := s'.late)
    ensures Core(s')
  {
    ServerKept(s, s');
    hide Sum, AllLinked, Tracked, ServerOk;
    forall f: Req -> nat
      ensures Everywhere(s', f) == Everywhere(s, f)
    {
    }
    hide Everywhere;
  }

  lemma ToldSettles(t: map<u32, Entry>, n: u32, accepted: bool)
    requires Expects(t, n)
    ensures Settled(t, Answered(t, n, accepted), n)
  {
  }

  lemma LearnKeeps(s: State)
    requires Core(s) && s.toClient != []
    ensures Core(DoLearn(s))
  {
    LearntIds(s);
    LearntLinks(s);
    LearntCredits(s);
    LearntLost(s);
    ServerKept(s, DoLearn(s));
    hide Links, AllTracked, IdsOk, CreditsOk, ServerOk, LostOk, Told;
  }

  lemma Tail(t: map<u32, Entry>, lost: set<nat>, q: seq<Req>)
    requires q != [] && AllLinked(t, q) && Tracked(t, lost, q)
    ensures Linked(t, q[0]) && AllLinked(t, q[1..]) && (Stray(t, q[0]) <==> q[0].id in lost) && Tracked(t, lost, q[1..])
  {
    hide Linked, Stray;
  }

  /** Whoever's entry an answer finds, a lost request has a cause. */
  lemma LearntLost(s: State)
    requires Core(s) && s.toClient != []
    ensures LostOk(DoLearn(s))
  {
    hide Sum, AllLinked, Tracked, ServerOk, CreditsOk, Answered;
    Tail(s.table, s.lost, s.toClient);
  }

  lemma LearntIds(s: State)
    requires Core(s) && s.toClient != []
    ensures IdsOk(DoLearn(s))
  {
    hide ServerOk, AllLinked, Tracked, Sum, CreditsOk, Answered, Settled;
    var a, t, s' := s.toClient[0], s.table, DoLearn(s);
    forall x: nat
      ensures Everywhere(s', IdIs(x)) + IdIs(x)(a) == Everywhere(s, IdIs(x))
    {
      FrontOff(s.toClient, IdIs(x));
    }
    Tail(t, s.lost, s.toClient);
    hide Everywhere;
    if Expects(t, a.n) {
      ToldSettles(t, a.n, a.accepted);
      SettledIds(s, s', a.n);
    }
  }

  lemma LearntLinks(s: State)
    requires Core(s) && s.toClient != []
    ensures Links(DoLearn(s)) && AllTracked(DoLearn(s))
  {
    hide ServerOk, AllLinked, Tracked, Settled, Sum, CreditsOk, Answered, Given;
    var a, t, s' := s.toClient[0], s.table, DoLearn(s);
    Tail(t, s.lost, s.toClient);
    if Expects(t, a.n) {
      var id := t[a.n].id;
      ToldSettles(t, a.n, a.accepted);
      SettledLinks(s.toServer, t, s'.table, a.n, s.lost);
      SettledLinks(s.held, t, s'.table, a.n, s.lost);
      SettledLinks(s.dropped, t, s'.table, a.n, s.lost);
      SettledLinks(s.answered, t, s'.table, a.n, s.lost);
      SettledLinks(s.toClient[1..], t, s'.table, a.n, s.lost);
      assert Everywhere(s, IdIs(id)) <= 1;
      FrontOff(s.toClient, IdIs(id));
    }
  }

  lemma LearntCredits(s: State)
    requires Core(s) && s.toClient != []
    ensures CreditsOk(DoLearn(s))
  {
    hide ServerOk, AllLinked, Tracked, Settled, Sum, Answered, Given, LostOk, AllTracked;
    var a, t, s' := s.toClient[0], s.table, DoLearn(s);
    FrontOff(s.toClient, IsCredited(t));
    if Expects(t, a.n) {
      LearntShares(s, IsCredited(s'.table));
      FrontOff(s.toClient, IdIs(t[a.n].id));
      assert HasCredit(t[a.n]) ==> Everywhere(s, IdIs(t[a.n].id)) == 1;
      hide IdsOk;
    } else {
      NotCredited(t, a);
    }
  }

  /** The credits of the other requests, after the first answer has changed its entry. */
  lemma LearntShares(s: State, f: Req -> nat)
    requires Core(s) && s.toClient != [] && Expects(s.table, s.toClient[0].n)
    requires f == IsCredited(DoLearn(s).table)
    ensures var e, rest := s.table[s.toClient[0].n], s.(toClient := s.toClient[1..]);
            Everywhere(rest, f) + (if HasCredit(e) then Everywhere(rest, IdIs(e.id)) else 0)
              == Everywhere(rest, IsCredited(s.table))
  {
    hide ServerOk, AllLinked, Tracked, Settled, Sum, Answered, Given, LostOk, IdsOk, CreditsOk;
    var a, t, t' := s.toClient[0], s.table, DoLearn(s).table;
    Tail(t, s.lost, s.toClient);
    ToldSettles(t, a.n, a.accepted);
    SettledLinks(s.toServer, t, t', a.n, s.lost);
    SettledLinks(s.held, t, t', a.n, s.lost);
    SettledLinks(s.dropped, t, t', a.n, s.lost);
    SettledLinks(s.answered, t, t', a.n, s.lost);
    SettledLinks(s.toClient[1..], t, t', a.n, s.lost);
  }

  /** A request that no entry awaits holds no credit. */
  lemma NotCredited(t: map<u32, Entry>, r: Req)
    requires !Expects(t, r.n)
    ensures !Credited(t, r)
  {
  }

  lemma CoreKeeps(s: State, step: Step)
    requires Inv(s)
    ensures Core(Next(s, step)) && Next(s, step).queue == s.queue
  {
    hide Core, GuardsOk, CanRejectByGuard;
    if Running(s) {
      match step
      case Ask(n, viaPort, pre) => AskKeeps(s, n, viaPort, pre);
      case Receive => if s.toServer != [] { ReceiveKeeps(s); }
      case Answer(i, accepted) => if i < |s.held| { AnswerKeeps(s, i, accepted); }
      case AcceptTentatively(i) =>
        if i < |s.held| && s.held[i].pre {
          AnswerKeeps(s, i, true);
          GuardTaken(DoAnswer(s, i, true), s.guards + [s.held[i]]);
        }
      case Drop(i) => if i < |s.held| { DropKeeps(s, i); }
      case QueueRejection(i) => if i < |s.dropped| { QueueRejectionKeeps(s, i); }
      case Handle(i) => if i < |s.answered| { HandleKeeps(s, i); }
      case Learn => if s.toClient != [] { LearnKeeps(s); }
      case Close(n) => if CanClose(s, n) { CloseKeeps(s, n); }
      case RejectByGuard(i) => if CanRejectByGuard(s, i) { RejectByGuardKeeps(s, i); GuardThere(s, i); }
    }
  }

  lemma GuardThere(s: State, i: nat)
    requires CanRejectByGuard(s, i)
    ensures i < |s.guards|
  {
  }

  lemma GuardTaken(s: State, guards: seq<Req>)
    requires Core(s)
    ensures Core(s.(guards := guards))
  {
    SidesOnly(s, s.(guards := guards));
  }

  // -- Guards

  /** What the guards' requests are part of has not changed. */
  lemma GuardsStay(s: State, s': State)
    requires GuardsOk(s) && s'.guards == s.guards && s'.serial == s.serial && s'.table == s.table
    requires forall x: nat :: Unanswered(s', IdIs(x)) <= Unanswered(s, IdIs(x))
    ensures GuardsOk(s')
  {
    hide AllLinked, Unanswered;
  }

  lemma AskGuards(s: State, n: u32, viaPort: bool, pre: bool)
    requires GuardsOk(s)
    ensures GuardsOk(DoAsk(s, n, viaPort, pre))
  {
    var s' := DoAsk(s, n, viaPort, pre);
    if s' != s {
      var r := Req(n, viaPort, pre, s.serial, false);
      forall i | 0 <= i < |s.guards|
        ensures Unanswered(s', IdIs(s.guards[i].id)) == 0 && Linked(s'.table, s.guards[i])
      {
        SumAppend(s.toServer, r, IdIs(s.guards[i].id));
        assert Linked(s.table, s.guards[i]);
      }
      hide Sum;
    }
  }

  lemma ReceiveGuards(s: State)
    requires GuardsOk(s) && s.toServer != []
    ensures GuardsOk(DoReceive(s))
  {
    hide GuardsOk, Sum;
    forall x: nat
      ensures Unanswered(DoReceive(s), IdIs(x)) == Unanswered(s, IdIs(x))
    {
      FrontOff(s.toServer, IdIs(x));
      SumAppend(s.held, s.toServer[0], IdIs(x));
    }
    hide Unanswered, IdIs;
    GuardsStay(s, DoReceive(s));
  }

  lemma AnswerGuards(s: State, i: nat, accepted: bool)
    requires GuardsOk(s) && i < |s.held|
    ensures GuardsOk(DoAnswer(s, i, accepted))
    ensures Unanswered(DoAnswer(s, i, accepted), IdIs(s.held[i].id)) + 1 == Unanswered(s, IdIs(s.held[i].id))
  {
    forall x: nat
      ensures Unanswered(DoAnswer(s, i, accepted), IdIs(x)) + IdIs(x)(s.held[i]) == Unanswered(s, IdIs(x))
    {
      SumRemove(s.held, i, IdIs(x));
    }
    hide Sum, Unanswered;
    GuardsStay(s, DoAnswer(s, i, accepted));
  }

  /** A request just answered is waited for by nobody at the server. */
  lemma JustAnswered(s: State, i: nat)
    requires Core(s) && GuardsOk(s) && i < |s.held|
    ensures var r := s.held[i];
            Linked(s.table, r) && r.id < s.serial && Unanswered(DoAnswer(s, i, true), IdIs(r.id)) == 0
  {
    var r := s.held[i];
    assert Everywhere(s, IdIs(r.id)) <= 1 && Linked(s.table, r);
    AnswerGuards(s, i, true);
    Found(s.held, i, IdIs(r.id));
    hide Sum, ServerOk, CreditsOk, AllTracked, LostOk, Tracked, GuardsOk, Linked, AllLinked;
  }

  lemma TentativeGuards(s: State, i: nat)
    requires Core(s) && GuardsOk(s) && i < |s.held| && s.held[i].pre
    ensures GuardsOk(DoAnswer(s, i, true).(guards := s.guards + [s.held[i]]))
  {
    JustAnswered(s, i);
    AnswerGuards(s, i, true);
    hide Sum, Core, Linked, IdIs, GuardsOk;
    GuardAdded(DoAnswer(s, i, true), s.held[i]);
  }

  lemma GuardAdded(s: State, r: Req)
    requires GuardsOk(s) && r.pre && r.id < s.serial && Linked(s.table, r) && Unanswered(s, IdIs(r.id)) == 0
    ensures GuardsOk(s.(guards := s.guards + [r]))
  {
    hide Sum, Linked, IdIs;
  }

  lemma DropGuards(s: State, i: nat)
    requires GuardsOk(s) && i < |s.held|
    ensures GuardsOk(s.(held := Remove(s.held, i), dropped := s.dropped + [s.held[i]]))
  {
    var s' := s.(held := Remove(s.held, i), dropped := s.dropped + [s.held[i]]);
    forall x: nat
      ensures Unanswered(s', IdIs(x)) == Unanswered(s, IdIs(x))
    {
      MovedSums(s.held, i, s.dropped, s.held[i], IdIs(x));
    }
    hide Sum, Unanswered;
    GuardsStay(s, s');
  }

  lemma QueueRejectionGuards(s: State, i: nat)
    requires GuardsOk(s) && i < |s.dropped|
    ensures GuardsOk(s.(dropped := Remove(s.dropped, i), answered := s.answered + [s.dropped[i]]))
  {
    var s' := s.(dropped := Remove(s.dropped, i), answered := s.answered + [s.dropped[i]]);
    forall x: nat
      ensures Unanswered(s', IdIs(x)) <= Unanswered(s, IdIs(x))
    {
      SumRemove(s.dropped, i, IdIs(x));
    }
    hide Sum, Unanswered;
    GuardsStay(s, s');
  }

  /** A change of the client's table leaves guards linked. */
  lemma SettledGuards(s: State, s': State, n: u32)
    requires GuardsOk(s) && Settled(s.table, s'.table, n) && s'.serial == s.serial
    requires s'.toServer == s.toServer && s'.held == s.held && s'.dropped == s.dropped
    requires forall i | 0 <= i < |s'.guards| :: s'.guards[i] in s.guards
    ensures GuardsOk(s')
  {
    SettledLinks(s.guards, s.table, s'.table, n, {});
    hide Sum, Settled, Linked;
    forall i | 0 <= i < |s'.guards|
      ensures Linked(s'.table, s'.guards[i]) && s'.guards[i].pre && s'.guards[i].id < s.serial
      ensures Unanswered(s', IdIs(s'.guards[i].id)) == 0
    {
      var k :| 0 <= k < |s.guards| && s.guards[k] == s'.guards[i];
      assert Unanswered(s', IdIs(s.guards[k].id)) == Unanswered(s, IdIs(s.guards[k].id));
    }
  }

  lemma ToldGuards(s: State, s': State, r: Req, accepted: bool)
    requires GuardsOk(s) && s'.table == Told(s, r, accepted).table && s'.serial == s.serial
    requires s'.toServer == s.toServer && s'.held == s.held && s'.dropped == s.dropped
    requires forall i | 0 <= i < |s'.guards| :: s'.guards[i] in s.guards
    ensures GuardsOk(s')
  {
    if Expects(s.table, r.n) {
      ToldSettles(s.table, r.n, accepted);
      SettledGuards(s, s', r.n);
    } else {
      hide Sum, Linked;
      forall i | 0 <= i < |s'.guards|
        ensures Linked(s'.table, s'.guards[i]) && s'.guards[i].pre && s'.guards[i].id < s.serial
        ensures Unanswered(s', IdIs(s'.guards[i].id)) == 0
      {
        var k :| 0 <= k < |s.guards| && s.guards[k] == s'.guards[i];
        assert Unanswered(s', IdIs(s.guards[k].id)) == Unanswered(s, IdIs(s.guards[k].id));
      }
    }
  }

  lemma LearnGuards(s: State)
    requires GuardsOk(s) && s.toClient != []
    ensures GuardsOk(DoLearn(s))
  {
    hide Sum, Linked, AllLinked, GuardsOk;
    ToldGuards(s, DoLearn(s), s.toClient[0], s.toClient[0].accepted);
  }

  lemma HandleGuards(s: State, i: nat)
    requires GuardsOk(s) && i < |s.answered|
    ensures GuardsOk(DoHandle(s, i))
  {
    forall x: nat
      ensures Unanswered(DoHandle(s, i), IdIs(x)) == Unanswered(s, IdIs(x))
    {
    }
    hide Sum, Unanswered;
    GuardsStay(s, DoHandle(s, i));
  }

  lemma CloseGuards(s: State, n: u32)
    requires GuardsOk(s) && n in s.table
    ensures GuardsOk(DoClose(s, n))
  {
    hide Sum, Linked, AllLinked;
    SettledGuards(s, DoClose(s, n), n);
  }

  lemma RejectByGuardGuards(s: State, i: nat)
    requires GuardsOk(s) && i < |s.guards|
    ensures GuardsOk(DoRejectByGuard(s, i))
  {
    hide Sum, Linked, AllLinked, GuardsOk;
    ToldGuards(s, DoRejectByGuard(s, i), s.guards[i], false);
  }

  lemma GuardsKeep(s: State, step: Step)
    requires Inv(s)
    ensures GuardsOk(Next(s, step))
  {
    hide Core, GuardsOk, CanRejectByGuard, Told;
    if Running(s) {
      match step
      case Ask(n, viaPort, pre) => AskGuards(s, n, viaPort, pre);
      case Receive => if s.toServer != [] { ReceiveGuards(s); }
      case Answer(i, accepted) => if i < |s.held| { AnswerGuards(s, i, accepted); }
      case AcceptTentatively(i) => if i < |s.held| && s.held[i].pre { TentativeGuards(s, i); }
      case Drop(i) => if i < |s.held| { DropGuards(s, i); }
      case QueueRejection(i) => if i < |s.dropped| { QueueRejectionGuards(s, i); }
      case Handle(i) => if i < |s.answered| { HandleGuards(s, i); }
      case Learn => if s.toClient != [] { LearnGuards(s); }
      case Close(n) => if CanClose(s, n) { CloseGuards(s, n); }
      case RejectByGuard(i) => if CanRejectByGuard(s, i) { GuardThere(s, i); RejectByGuardGuards(s, i); }
    }
  }

  lemma StepKeeps(s: State, step: Step)
    requires Inv(s)
    ensures Inv(Next(s, step)) && Next(s, step).queue == s.queue
  {
    hide Next, Core, GuardsOk;
    CoreKeeps(s, step);
    GuardsKeep(s, step);
  }

  lemma StartInv(queue: nat)
    ensures Inv(Start(queue))
  {
  }

  lemma {:induction false} RunInv(queue: nat, steps: seq<Step>)
    ensures Inv(Run(queue, steps)) && Run(queue, steps).queue == queue
  {
    hide Inv, Next;
    if steps == [] {
      StartInv(queue);
    } else {
      RunInv(queue, steps[..|steps| - 1]);
      StepKeeps(Run(queue, steps[..|steps| - 1]), steps[|steps| - 1]);
    }
  }

  // ---------------------------------------------------------------------------
  // Every run
  // ---------------------------------------------------------------------------

  /**
   In every run, whatever is freed early: no answer misses its request, each request is in one
   place at a time, outstanding numbers are those at the server, and the reserved ports with the
   pre-connected requests there, like the credits at hand with those held for requests, number
   the connection queue.
   */
  lemma AnsweredOnce(queue: nat, steps: seq<Step>, n: u32, id: nat)
    ensures var s := Run(queue, steps);
            && !s.panicked
            && Everywhere(s, IdIs(id)) <= 1
            && AtServer(s, NumberIs(n)) == (if n in s.outstanding then 1 else 0)
            && s.pool + AtServer(s, IsPre()) == queue
            && s.credits + Everywhere(s, IsCredited(s.table)) == queue
  {
    hide Run;
    RunInv(queue, steps);
  }

  function IsUncredited(t: map<u32, Entry>): Req -> nat {
    (r: Req) => if Credited(t, r) then 0 else 1
  }

  function IsUncreditedPre(t: map<u32, Entry>): Req -> nat {
    (r: Req) => if r.pre && !Credited(t, r) then 1 else 0
  }

  function IsCreditedOther(t: map<u32, Entry>): Req -> nat {
    (r: Req) => if !r.pre && Credited(t, r) then 1 else 0
  }

  lemma {:induction false} Shares(q: seq<Req>, t: map<u32, Entry>)
    ensures Sum(q, IsCredited(t)) + Sum(q, IsUncredited(t)) == |q|
    ensures Sum(q, IsPre()) + Sum(q, IsCreditedOther(t)) == Sum(q, IsCredited(t)) + Sum(q, IsUncreditedPre(t))
    decreases |q|
  {
    if q != [] {
      Shares(q[1..], t);
    }
  }

  /** Requests at the server that no credit stands for, at least as many as credits elsewhere. */
  predicate Crowded(s: State) {
    AtServer(s, IsUncredited(s.table)) >= s.credits + OnWires(s, IsCredited(s.table))
  }

  /** All ports reserved for pre-connected requests are taken, as the client's credits account for it. */
  predicate Drained(s: State) {
    AtServer(s, IsUncreditedPre(s.table))
    == s.credits + OnWires(s, IsCredited(s.table)) + AtServer(s, IsCreditedOther(s.table))
  }

  lemma CrowdedMeansFull(s: State)
    requires Inv(s)
    ensures Crowded(s) <==> |s.outstanding| >= s.queue
    ensures Drained(s) <==> s.pool == 0
  {
    Shares(s.held, s.table);
    Shares(s.dropped, s.table);
    Shares(s.answered, s.table);
    hide Sum, Links, IdsOk, AllTracked, GuardsOk, LostOk;
  }

  /**
   A request is refused exactly if its number is in use at the server, if it has a message of
   its own and the requests there without a credit are as many as the credits elsewhere, or if
   it is pre-connected and those among them that are pre-connected make up all the rest.
   */
  lemma RefusedExactly(queue: nat, steps: seq<Step>)
    requires Running(Run(queue, steps)) && Run(queue, steps).toServer != []
    ensures var s := Run(queue, steps);
            var r := s.toServer[0];
            Next(s, Receive).refused
            <==> AtServer(s, NumberIs(r.n)) == 1 || (!r.viaPort && Crowded(s)) || (r.pre && Drained(s))
  {
    hide Run;
    RunInv(queue, steps);
    var s := Run(queue, steps);
    CrowdedMeansFull(s);
    var r := s.toServer[0];
    assert AtServer(s, NumberIs(r.n)) == if r.n in s.outstanding then 1 else 0;
    assert r.n !in s.outstanding ==> |s.outstanding + {r.n}| == |s.outstanding| + 1;
    hide Sum, Crowded, Drained, Links, IdsOk, CreditsOk, AtServer, AllTracked, GuardsOk, LostOk;
  }

  /** Whether a request is somewhere between client and server. */
  predicate UnderWay(s: State, r: Req) {
    r in s.toServer || r in s.held || r in s.dropped || r in s.answered || r in s.toClient
  }

  /**
   In every run and for requests in every place: no entry waits for a request exactly if it is
   lost, and requests are lost only after an entry was freed early or a guard rejected late.
   */
  lemma StrayExactly(queue: nat, steps: seq<Step>, r: Req)
    ensures var s := Run(queue, steps);
            && (UnderWay(s, r) ==> (Stray(s.table, r) <==> r.id in s.lost))
            && (s.lost != {} ==> s.early || s.late)
            && (s.early ==> s.lost != {})
  {
    hide Run;
    RunInv(queue, steps);
    hide Links, IdsOk, ServerOk, CreditsOk, GuardsOk, Stray;
  }

  /**
   In every run the next answer fails exactly if its request is lost and nothing under its
   number awaits one. An answer to a lost request that finds another request waiting there
   makes that one lost, and one to any other request finds its own entry waiting.
   */
  lemma LearnFailsExactly(queue: nat, steps: seq<Step>)
    requires Running(Run(queue, steps)) && Run(queue, steps).toClient != []
    ensures var s := Run(queue, steps);
            var r, s' := s.toClient[0], Next(s, Learn);
            && (s'.unknown <==> r.id in s.lost && !Expects(s.table, r.n))
            && (r.id !in s.lost ==> Owns(s.table, r) && Waits(s.table[r.n]) && s'.lost == s.lost)
            && (r.id in s.lost && r.n in s.table && Waits(s.table[r.n]) ==> s'.lost == s.lost + {s.table[r.n].id})
  {
    hide Run;
    RunInv(queue, steps);
    var s := Run(queue, steps);
    Tail(s.table, s.lost, s.toClient);
    hide Links, IdsOk, ServerOk, CreditsOk, GuardsOk, AllTracked, LostOk, Sum, Answered;
  }

  /**
   In every run a rejection by a guard changes nothing for the client while the entry of its
   own request is there. After that it fails, exactly if nothing under the number could be
   answered, or is taken for the answer to another request.
   */
  lemma GuardLateExactly(queue: nat, steps: seq<Step>, i: nat)
    requires Running(Run(queue, steps)) && CanRejectByGuard(Run(queue, steps), i)
    ensures var s := Run(queue, steps);
            var s', g := Next(s, RejectByGuard(i)), s.guards[i];
            && (Owns(s.table, g) ==> s' == s.(guards := Remove(s.guards, i)))
            && (!Owns(s.table, g) ==> s'.late && (s'.unknown <==> !Expects(s.table, g.n)))
            && (!Owns(s.table, g) && g.n in s.table && Waits(s.table[g.n]) ==> s'.lost == s.lost + {s.table[g.n].id})
  {
    hide Run;
    RunInv(queue, steps);
    var s := Run(queue, steps);
    if Owns(s.table, s.guards[i]) {
      GuardEntry(s, i);
    }
    hide Core, GuardsOk, Sum, Answered;
  }

  lemma NoneLost(s: State)
    requires Core(s) && !s.early && !s.late
    ensures NoStrays(s) && !s.unknown
  {
    hide ServerOk, Links, IdsOk, CreditsOk, Stray;
  }

  // -- Without early closing

  lemma {:induction false} NoneNumbered(q: seq<Req>, t: map<u32, Entry>, r: Req)
    requires NoneStray(t, q) && !Stray(t, r) && Sum(q, IdIs(r.id)) == 0
    ensures Sum(q, NumberIs(r.n)) == 0
    decreases |q|
  {
    if q != [] {
      Found(q, 0, IdIs(r.id));
      assert !Stray(t, q[0]);
      assert NoneStray(t, q[1..]);
      NoneNumbered(q[1..], t, r);
    }
  }

  /** Pre-connected requests that are not stray have their credit. */
  lemma {:induction false} PreHaveCredit(q: seq<Req>, t: map<u32, Entry>)
    requires NoneStray(t, q) && AllLinked(t, q)
    ensures Sum(q, IsUncreditedPre(t)) == 0
    decreases |q|
  {
    if q != [] {
      assert Linked(t, q[0]) && !Stray(t, q[0]);
      assert NoneStray(t, q[1..]) && AllLinked(t, q[1..]);
      PreHaveCredit(q[1..], t);
    }
  }

  lemma {:induction false} PaidHaveCredit(q: seq<Req>, t: map<u32, Entry>)
    requires NoneStray(t, q) && AllLinked(t, q) && AllPaid(q)
    ensures Sum(q, IsUncredited(t)) == 0
    decreases |q|
  {
    if q != [] {
      assert Linked(t, q[0]) && !Stray(t, q[0]) && q[0].Paid();
      assert NoneStray(t, q[1..]) && AllLinked(t, q[1..]) && AllPaid(q[1..]);
      PaidHaveCredit(q[1..], t);
    }
  }

  predicate AllPaid(q: seq<Req>) {
    forall i | 0 <= i < |q| :: q[i].Paid()
  }

  /** The request that arrives has a number of its own and, if paid for, a credit. */
  lemma Arriving(s: State)
    requires Inv(s) && NoStrays(s) && s.toServer != []
    ensures var r := s.toServer[0];
            && AtServer(s, NumberIs(r.n)) == 0
            && (r.Paid() ==> OnWires(s, IsCredited(s.table)) >= 1)
            && (r.pre ==> s.pool > 0)
  {
    var r, t := s.toServer[0], s.table;
    CrowdedMeansFull(s);
    Tail(t, s.lost, s.toServer);
    assert !Stray(t, r);
    Found(s.toServer, 0, IdIs(r.id));
    Found(s.toServer, 0, IsCredited(t));
    assert Everywhere(s, IdIs(r.id)) <= 1;
    NoneNumbered(s.held, t, r);
    NoneNumbered(s.dropped, t, r);
    NoneNumbered(s.answered, t, r);
    PreHaveCredit(s.held, t);
    PreHaveCredit(s.dropped, t);
    PreHaveCredit(s.answered, t);
    hide Sum, AllLinked, NoneStray, ServerOk, IdsOk, AllTracked, LostOk, GuardsOk;
  }

  /** A request message that arrives while as many requests are outstanding as the queue allows. */
  predicate FullQueue(s: State, step: Step) {
    step.Receive? && s.toServer != [] && !s.toServer[0].viaPort && |s.outstanding| >= s.queue
  }

  /**
   As long as no pre-connected entry is freed before its answer and no guard rejects late, no
   answer fails, and a request is refused exactly if it has a message of its own and the queue
   is full.
   */
  lemma WithoutEarlyClosing(queue: nat, steps: seq<Step>, step: Step)
    requires Running(Run(queue, steps)) && !Next(Run(queue, steps), step).early && !Next(Run(queue, steps), step).late
    ensures var s := Run(queue, steps);
            && !Next(s, step).unknown
            && (Next(s, step).refused <==> FullQueue(s, step))
  {
    hide Run, Next, Core, GuardsOk, FullQueue;
    RunInv(queue, steps);
    var s := Run(queue, steps);
    StepKeeps(s, step);
    CausesStay(s, step);
    NoneLost(Next(s, step));
    RefusedByFullQueue(s, step);
  }

  lemma RefusedByFullQueue(s: State, step: Step)
    requires Inv(s) && Running(s) && !s.early && !s.late
    ensures Next(s, step).refused <==> FullQueue(s, step)
  {
    if step.Receive? && s.toServer != [] {
      hide Core, GuardsOk;
      AdmittedOrFull(s);
    } else {
      OnlyReceiveRefuses(s, step);
      hide Next, Inv;
    }
  }

  lemma AdmittedOrFull(s: State)
    requires Inv(s) && !s.refused && !s.early && !s.late && s.toServer != []
    ensures DoReceive(s).refused <==> !s.toServer[0].viaPort && |s.outstanding| >= s.queue
  {
    NoneLost(s);
    Arriving(s);
    var r := s.toServer[0];
    assert AtServer(s, NumberIs(r.n)) == if r.n in s.outstanding then 1 else 0;
    assert |s.outstanding + {r.n}| == |s.outstanding| + 1;
    hide Sum, Links, NoStrays, IdsOk, CreditsOk, AtServer, AllTracked, LostOk, GuardsOk;
  }

  lemma OnlyReceiveRefuses(s: State, step: Step)
    requires !s.refused && !(step.Receive? && s.toServer != [])
    ensures !Next(s, step).refused
  {
    hide Sum, CanClose, Answered, Expects;
  }

  lemma CausesStay(s: State, step: Step)
    ensures (s.early ==> Next(s, step).early) && (s.late ==> Next(s, step).late)
  {
    hide Sum, CanClose, CanRejectByGuard, Answered, Expects;
  }

  predicate PaidSteps(steps: seq<Step>) {
    forall i | 0 <= i < |steps| :: steps[i].Ask? ==> !steps[i].viaPort || steps[i].pre
  }

  predicate OnlyPaid(s: State) {
    AllPaid(s.toServer) && AllPaid(s.held) && AllPaid(s.dropped) && AllPaid(s.answered) && AllPaid(s.toClient)
  }

  lemma OnlyPaidKept(s: State, step: Step)
    requires OnlyPaid(s) && (step.Ask? ==> !step.viaPort || step.pre)
    ensures OnlyPaid(Next(s, step))
  {
    hide Sum, CanClose, CanRejectByGuard, Answered, Expects;
  }

  lemma OnlyPaidFits(s: State, step: Step)
    requires Inv(s) && NoStrays(s) && OnlyPaid(s)
    ensures !FullQueue(s, step)
  {
    if step.Receive? && s.toServer != [] {
      Arriving(s);
      CrowdedMeansFull(s);
      PaidHaveCredit(s.held, s.table);
      PaidHaveCredit(s.dropped, s.table);
      PaidHaveCredit(s.answered, s.table);
      hide Sum, AllLinked, NoneStray, ServerOk, IdsOk, CreditsOk, AllTracked, LostOk, GuardsOk;
    }
  }

  /**
   What a failure needs: an answer nobody awaits, an entry freed early or a late rejection by a
   guard; a refusal, one of these or a port that was sent over a port without a credit.
   */
  lemma {:induction false} FailureNeedsCause(queue: nat, steps: seq<Step>)
    ensures var s := Run(queue, steps);
            && (s.unknown ==> s.early || s.late)
            && (s.refused && PaidSteps(steps) ==> s.early || s.late)
            && (PaidSteps(steps) ==> OnlyPaid(s))
  {
    RunInv(queue, steps);
    if steps != [] {
      var before, step := steps[..|steps| - 1], steps[|steps| - 1];
      FailureNeedsCause(queue, before);
      var s := Run(queue, before);
      RunInv(queue, before);
      CausesStay(s, step);
      if PaidSteps(steps) {
        assert PaidSteps(before);
        OnlyPaidKept(s, step);
        if Running(s) && !Next(s, step).early && !Next(s, step).late {
          WithoutEarlyClosing(queue, before, step);
          NoneLost(s);
          OnlyPaidFits(s, step);
        }
      }
      hide Next, OnlyPaid, ServerOk, Links, IdsOk, CreditsOk, NoStrays, FullQueue, GuardsOk, AllTracked;
    }
  }

  predicate NonePre(q: seq<Req>) {
    forall i | 0 <= i < |q| :: !q[i].pre
  }

  predicate NothingPre(s: State) {
    && (forall n | n in s.table :: !s.table[n].PreConnected?)
    && NonePre(s.toServer) && NonePre(s.held) && s.guards == []
  }

  /** Without pre-connected requests no entry is freed early and no guard rejects anything. */
  lemma {:induction false} NeverEarlyWithoutPre(queue: nat, steps: seq<Step>)
    requires forall i | 0 <= i < |steps| :: steps[i].Ask? ==> !steps[i].pre
    ensures !Run(queue, steps).early && !Run(queue, steps).late && NothingPre(Run(queue, steps))
  {
    if steps != [] {
      NeverEarlyWithoutPre(queue, steps[..|steps| - 1]);
      NothingPreKept(Run(queue, steps[..|steps| - 1]), steps[|steps| - 1]);
    }
  }

  lemma NothingPreKept(s: State, step: Step)
    requires !s.early && !s.late && NothingPre(s) && (step.Ask? ==> !step.pre)
    ensures !Next(s, step).early && !Next(s, step).late && NothingPre(Next(s, step))
  {
    hide Sum, CanRejectByGuard;
    if step.RejectByGuard? && CanRejectByGuard(s, step.i) {
      GuardThere(s, step.i);
    }
  }

  // ---------------------------------------------------------------------------
  // Runs that fail
  // ---------------------------------------------------------------------------

  lemma Then(queue: nat, steps: seq<Step>, step: Step) returns (more: seq<Step>)
    ensures Run(queue, more) == Next(Run(queue, steps), step)
    ensures PaidSteps(steps) && (step.Ask? ==> !step.viaPort || step.pre) ==> PaidSteps(more)
  {
    more := steps + [step];
    assert more[..|more| - 1] == steps;
  }

  /** With a queue of one: the client has freed its pre-connected port 1, the server still has the request. */
  function FreedEarly(): State {
    State(1, 1, map[], 1, [], [], [Req(1, false, true, 0, false)], [], [], {1}, 0, false, false, false, [], {0}, true,
      false)
  }

  lemma FreeingEarly()
    ensures Next(Next(Next(Next(Start(1), Ask(1, false, true)), Receive), Drop(0)), Close(1)) == FreedEarly()
  {
    var r := Req(1, false, true, 0, false);
    assert map[][1 as u32 := PreConnected(0, true)] == map[1 as u32 := PreConnected(0, true)];
    assert [] + [r] == [r] && [r][1..] == [];
    var s1 := Start(1).(table := map[1 := PreConnected(0, true)], credits := 0, serial := 1, toServer := [r]);
    assert Next(Start(1), Ask(1, false, true)) == s1;
    assert {} + {1 as u32} == {1 as u32};
    var s2 := s1.(toServer := [], outstanding := {1}, held := [r], pool := 0);
    assert Next(s1, Receive) == s2;
    assert Remove([r], 0) == [];
    var s3 := s2.(held := [], dropped := [r]);
    assert Next(s2, Drop(0)) == s3;
    assert Sum([], IdIs(0)) == 0;
    assert map[1 as u32 := PreConnected(0, true)] - {1} == map[];
  }

  /** The run that frees port 1 early. */
  lemma EarlyRun() returns (steps: seq<Step>)
    ensures Run(1, steps) == FreedEarly() && PaidSteps(steps)
  {
    steps := [];
    assert Run(1, steps) == Start(1);
    hide Run, Next;
    steps := Then(1, steps, Ask(1, false, true));
    steps := Then(1, steps, Receive);
    steps := Then(1, steps, Drop(0));
    steps := Then(1, steps, Close(1));
    FreeingEarly();
  }

  lemma NextAsk(viaPort: bool)
    ensures Next(Next(FreedEarly(), Ask(2, viaPort, true)), Receive).refused
  {
    var r := Req(2, viaPort, true, 1, false);
    assert [] + [r] == [r];
    assert map[][2 as u32 := PreConnected(1, true)] == map[2 as u32 := PreConnected(1, true)];
    var s := FreedEarly().(table := map[2 := PreConnected(1, true)], credits := 0, serial := 2, toServer := [r]);
    assert Next(FreedEarly(), Ask(2, viaPort, true)) == s;
  }

  /** The credit that came back early buys a request that is refused: by a full queue, or by an empty pool. */
  lemma RefusedAfterEarlyClosing(viaPort: bool) returns (steps: seq<Step>)
    ensures Run(1, steps).refused && PaidSteps(steps)
  {
    steps := EarlyRun();
    hide Run, Next, FreedEarly;
    steps := Then(1, steps, Ask(2, viaPort, true));
    steps := Then(1, steps, Receive);
    NextAsk(viaPort);
  }

  lemma LateAnswer()
    ensures Next(Next(Next(FreedEarly(), QueueRejection(0)), Handle(0)), Learn).unknown
  {
    var r := Req(1, false, true, 0, false);
    assert Remove([r], 0) == [] && [] + [r] == [r];
    var s1 := FreedEarly().(dropped := [], answered := [r]);
    assert Next(FreedEarly(), QueueRejection(0)) == s1;
    assert {1 as u32} - {1} == {};
    var s2 := s1.(answered := [], outstanding := {}, pool := 1, toClient := [r]);
    assert Next(s1, Handle(0)) == s2;
  }

  /** The answer to a request whose entry was freed early is an error. */
  lemma UnknownAfterEarlyClosing() returns (steps: seq<Step>)
    ensures Run(1, steps).unknown && PaidSteps(steps)
  {
    steps := EarlyRun();
    hide Run, Next, FreedEarly;
    steps := Then(1, steps, QueueRejection(0));
    steps := Then(1, steps, Handle(0));
    steps := Then(1, steps, Learn);
    LateAnswer();
  }

  /**
   With a queue of one and nothing freed early: a port sent over a port takes the place of a
   request that has a credit.
   */
  lemma RefusedDespiteCredit() returns (steps: seq<Step>)
    ensures Run(1, steps).refused && !Run(1, steps).early && !Run(1, steps).late
  {
    steps := [];
    assert Run(1, steps) == Start(1);
    hide Run;
    steps := Then(1, steps, Ask(5, true, false));
    steps := Then(1, steps, Receive);
    steps := Then(1, steps, Ask(6, false, false));
    steps := Then(1, steps, Receive);
    UnpaidFirst();
    hide Next;
  }

  lemma UnpaidFirst()
    ensures var s := Next(Next(Next(Next(Start(1), Ask(5, true, false)), Receive), Ask(6, false, false)), Receive);
            s.refused && !s.early && !s.late
  {
    var a, b := Req(5, true, false, 0, false), Req(6, false, false, 1, false);
    assert [] + [a] == [a] && [a][1..] == [] && [] + [b] == [b];
    var t1: map<u32, Entry> := map[5 := Connecting(0, false)];
    var s1 := Start(1).(table := t1, serial := 1, toServer := [a]);
    assert Next(Start(1), Ask(5, true, false)) == s1;
    assert {} + {5 as u32} == {5 as u32};
    var s2 := s1.(toServer := [], outstanding := {5}, held := [a]);
    assert Next(s1, Receive) == s2;
    var s3 := s2.(table := t1[6 := Connecting(1, true)], credits := 0, serial := 2, toServer := [b]);
    assert Next(s2, Ask(6, false, false)) == s3;
    assert |{5 as u32} + {6 as u32}| == 2 by { assert {5 as u32} + {6 as u32} == {5 as u32, 6 as u32}; }
  }

  const TENTATIVE := Req(1, false, true, 0, false)

  /** Request 1 was accepted tentatively, its answer learnt and its entry freed as usual; only the guard is left. */
  function OnlyGuard(): State {
    Start(1).(serial := 1, guards := [TENTATIVE])
  }

  lemma GuardRemains()
    ensures var s1 := Next(Next(Next(Start(1), Ask(1, false, true)), Receive), AcceptTentatively(0));
            Next(Next(Next(s1, Handle(0)), Learn), Close(1)) == OnlyGuard()
  {
    var r, a := TENTATIVE, TENTATIVE.(accepted := true);
    assert map[][1 as u32 := PreConnected(0, true)] == map[1 as u32 := PreConnected(0, true)];
    assert [] + [r] == [r] && [r][1..] == [] && [] + [a] == [a] && [a][1..] == [];
    var s1 := Start(1).(table := map[1 := PreConnected(0, true)], credits := 0, serial := 1, toServer := [r]);
    assert Next(Start(1), Ask(1, false, true)) == s1;
    assert {} + {1 as u32} == {1 as u32};
    var s2 := s1.(toServer := [], outstanding := {1}, held := [r], pool := 0);
    assert Next(s1, Receive) == s2;
    assert Remove([r], 0) == [] && Remove([a], 0) == [];
    var s3 := s2.(held := [], answered := [a], guards := [r]);
    assert Next(s2, AcceptTentatively(0)) == s3;
    assert {1 as u32} - {1} == {};
    var s4 := s3.(answered := [], outstanding := {}, pool := 1, toClient := [a]);
    assert Next(s3, Handle(0)) == s4;
    assert s1.table[1 := PreConnected(0, false)] == map[1 as u32 := PreConnected(0, false)];
    var s5 := s4.(toClient := [], table := map[1 := PreConnected(0, false)], credits := 1);
    assert Next(s4, Learn) == s5;
    assert s5.table - {1} == map[];
  }

  lemma GuardRun() returns (steps: seq<Step>)
    ensures Run(1, steps) == OnlyGuard() && PaidSteps(steps)
  {
    steps := [];
    assert Run(1, steps) == Start(1);
    hide Run, Next;
    steps := Then(1, steps, Ask(1, false, true));
    steps := Then(1, steps, Receive);
    steps := Then(1, steps, AcceptTentatively(0));
    steps := Then(1, steps, Handle(0));
    steps := Then(1, steps, Learn);
    steps := Then(1, steps, Close(1));
    GuardRemains();
  }

  lemma GuardFails()
    ensures Next(OnlyGuard(), RejectByGuard(0)).unknown && !Next(OnlyGuard(), RejectByGuard(0)).early
  {
  }

  /** Nothing is freed early, yet a rejection through the guard of a closed port is an error. */
  lemma UnknownAfterLateRejection() returns (steps: seq<Step>)
    ensures Run(1, steps).unknown && !Run(1, steps).early && PaidSteps(steps)
  {
    steps := GuardRun();
    hide Run, Next, OnlyGuard;
    steps := Then(1, steps, RejectByGuard(0));
    GuardFails();
  }

  lemma GuardMisleads()
    ensures var s := Next(Next(OnlyGuard(), Ask(1, false, false)), RejectByGuard(0));
            Running(s) && s.lost == {1} && s.table == map[] && s.credits == 1 && s.toServer != [] && !s.early
  {
    var r := Req(1, false, false, 1, false);
    var t: map<u32, Entry> := map[1 := Connecting(1, true)];
    assert map[][1 as u32 := Connecting(1, true)] == t && [] + [r] == [r];
    var s := OnlyGuard().(table := t, credits := 0, serial := 2, toServer := [r]);
    assert Next(OnlyGuard(), Ask(1, false, false)) == s;
    assert t - {1} == map[] && {} + {1 as nat} == {1 as nat};
  }

  /**
   With the number in use again, the guard's rejection ends a request that is still on its way,
   and returns its credit.
   */
  lemma LateRejectionMisleads() returns (steps: seq<Step>)
    ensures var s := Run(1, steps);
            Running(s) && s.lost == {1} && s.table == map[] && s.credits == 1 && s.toServer != [] && !s.early
  {
    steps := GuardRun();
    hide Run, Next, OnlyGuard;
    steps := Then(1, steps, Ask(1, false, false));
    steps := Then(1, steps, RejectByGuard(0));
    GuardMisleads();
  }
}
