/** One connection request at the listener: every way of using it up answers it exactly once. */
module Requests {
  import opened Types

  /** What the multiplexer is told. A reservation refills the pool for pre-connected ports. */
  datatype Answer = Answer(n: u32, accepted: bool, noPorts: bool, reserved: bool)

  /** How a wait ends: it is over, there are no ports, or the caller abandons the whole operation. */
  datatype Choice = Proceed | Exhausted | Abandon

  datatype Stage = NotPreConnected | AcceptedNow | NotAccepted

  /** The next so many waits all end with what was waited for. */
  predicate Proceeds(choices: seq<Choice>, waits: nat) {
    waits <= |choices| && forall k | 0 <= k < waits :: choices[k].Proceed?
  }

  class Request {
    const n: u32
    const wait: bool
    var preConnected: bool
    var done: bool
    /** Answers queued for the multiplexer, and how the coming waits will end. */
    var tx: seq<Answer>
    var choices: seq<Choice>

    constructor (n: u32, wait: bool, preConnected: bool, choices: seq<Choice>)
      ensures this.n == n && this.wait == wait && this.preConnected == preConnected
      ensures !done && tx == [] && this.choices == choices
    {
      this.n, this.wait, this.preConnected, done, tx, this.choices := n, wait, preConnected, false, [], choices;
    }

    /** With nothing more to come the caller has given up. */
    method Wait() returns (c: Choice)
      modifies this`choices
      ensures c.Proceed? <==> Proceeds(old(choices), 1)
      ensures choices == if old(choices) == [] then [] else old(choices)[1..]
    {
      c := Abandon;
      if choices != [] {
        c := choices[0];
        choices := choices[1..];
      }
    }

    /** The request goes out of scope; without an answer so far it is rejected. */
    method Drop()
      modifies this`tx
      ensures tx == if done then old(tx) else old(tx) + [Answer(n, false, false, preConnected)]
    {
      if !done {
        tx := tx + [Answer(n, false, false, preConnected)];
      }
    }

    method AcceptPreConnected() returns (s: Stage)
      requires !done
      modifies this
      ensures s.NotPreConnected? <==> !old(preConnected)
      ensures s.AcceptedNow? <==> old(preConnected) && Proceeds(old(choices), 2)
      ensures s.NotPreConnected? ==> choices == old(choices)
      ensures s.AcceptedNow? ==> done && tx == old(tx) + [Answer(n, true, false, true)]
      ensures !s.AcceptedNow? ==> !done && tx == old(tx) && preConnected == old(preConnected)
    {
      if !preConnected {
        return NotPreConnected;
      }
      var reserve := Wait();
      if !reserve.Proceed? {
        return NotAccepted;
      }
      var permit := Wait();
      if !permit.Proceed? {
        return NotAccepted;
      }
      preConnected := false;
      tx := tx + [Answer(n, true, false, true)];
      done := true;
      s := AcceptedNow;
    }

    /** With a port already reserved; a number that is already taken fails. */
    method AcceptReserved(numberTaken: bool) returns (ok: bool, a: Answer)
      requires !done
      modifies this
      ensures tx == old(tx) + [a] && a.n == n && a.reserved == old(preConnected) && !a.noPorts
      ensures ok <==> (old(preConnected) || !numberTaken) && Proceeds(old(choices), 2)
      ensures a.accepted <==>
                if old(preConnected) then Proceeds(old(choices), 2) else !numberTaken && Proceeds(old(choices), 1)
    {
      var s := AcceptPreConnected();
      if s.NotPreConnected? && !numberTaken {
        var send := Wait();
        if send.Proceed? {
          tx := tx + [Answer(n, true, false, false)];
          done := true;
          var port := Wait();
          Drop();
          return port.Proceed?, Answer(n, true, false, false);
        }
      }
      Drop();
      return s.AcceptedNow?, if s.AcceptedNow? then Answer(n, true, false, true)
        else Answer(n, false, false, preConnected);
    }

    method Accept(portsLeft: bool, numberTaken: bool) returns (ok: bool, a: Answer)
      requires !done
      modifies this
      ensures tx == old(tx) + [a] && a.n == n && a.reserved == old(preConnected)
      ensures var reserve := if wait then 1 else 0;
              ok <==> if old(preConnected) then Proceeds(old(choices), 2)
                      else (wait || portsLeft) && !numberTaken && Proceeds(old(choices), reserve + 2)
      ensures var reserve := if wait then 1 else 0;
              a.accepted <==> if old(preConnected) then Proceeds(old(choices), 2)
                              else (wait || portsLeft) && !numberTaken && Proceeds(old(choices), reserve + 1)
      ensures a.noPorts <==> !old(preConnected) && !wait && !portsLeft && Proceeds(old(choices), 1)
    {
      var s := AcceptPreConnected();
      if s.AcceptedNow? {
        Drop();
        return true, Answer(n, true, false, true);
      }
      if s.NotAccepted? {
        Drop();
        return false, Answer(n, false, false, preConnected);
      }
      if wait {
        var reserve := Wait();
        if !reserve.Proceed? {
          Drop();
          return false, Answer(n, false, false, preConnected);
        }
      } else if !portsLeft {
        a := Reject(true);
        return false, a;
      }
      ok, a := AcceptReserved(numberTaken);
    }

    /** Only pre-connected requests can be accepted for the time being. */
    method AcceptTentatively() returns (ok: bool, a: Answer)
      requires !done
      modifies this
      ensures tx == old(tx) + [a] && a.n == n && a.reserved == old(preConnected)
      ensures ok <==> old(preConnected) && Proceeds(old(choices), 2)
      ensures (a.accepted <==> ok) && !a.noPorts
    {
      var s := AcceptPreConnected();
      Drop();
      ok := s.AcceptedNow?;
      a := if ok then Answer(n, true, false, true) else Answer(n, false, false, preConnected);
    }

    method Reject(noPorts: bool) returns (a: Answer)
      requires !done
      modifies this
      ensures tx == old(tx) + [a] && a.n == n && a.reserved == old(preConnected) && !a.accepted
      ensures a.noPorts <==> noPorts && Proceeds(old(choices), if old(preConnected) then 2 else 1)
    {
      var ready := true;
      if preConnected {
        var reserve := Wait();
        ready := reserve.Proceed?;
      }
      if ready {
        var send := Wait();
        if send.Proceed? {
          a := Answer(n, false, noPorts, preConnected);
          tx := tx + [a];
          done := true;
          Drop();
          return;
        }
      }
      a := Answer(n, false, false, preConnected);
      Drop();
    }
  }
}
