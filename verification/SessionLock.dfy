/**
 The lock of each employee's session: every caller waits for the promise that
 the caller before it resolves, and leaves its own promise for the next one.
 */
module SessionLock {
  import opened Wrappers

  type EmployeeId = string

  datatype Stage = Waiting | Holding | Released

  /** One call of `#acquire`; `previous` is the promise it awaits, if any was left. */
  datatype Ticket = Ticket(employee: EmployeeId, previous: Option<nat>, stage: Stage)

  /** The promise of the `n`-th call is resolved when ticket `n` is released. */
  datatype Lock = Lock(tails: map<EmployeeId, nat>, tickets: seq<Ticket>)

  const INITIAL := Lock(map[], [])

  function Arrive(l: Lock, e: EmployeeId): Lock {
    var previous := if e in l.tails then Some(l.tails[e]) else None;
    Lock(l.tails[e := |l.tickets|], l.tickets + [Ticket(e, previous, Waiting)])
  }

  predicate CanBeGranted(l: Lock, n: nat) {
    && n < |l.tickets| && l.tickets[n].stage == Waiting
    && match l.tickets[n].previous
       case None => true
       case Some(p) => p < |l.tickets| && l.tickets[p].stage == Released
  }

  function Grant(l: Lock, n: nat): Lock
    requires CanBeGranted(l, n)
  {
    l.(tickets := l.tickets[n := l.tickets[n].(stage := Holding)])
  }

  predicate IsHolding(l: Lock, n: nat) {
    n < |l.tickets| && l.tickets[n].stage == Holding
  }

  function Release(l: Lock, n: nat): Lock
    requires IsHolding(l, n)
  {
    var e := l.tickets[n].employee;
    Lock(if e in l.tails && l.tails[e] == n then l.tails - {e} else l.tails,
         l.tickets[n := l.tickets[n].(stage := Released)])
  }

  datatype Step = Arrives(employee: EmployeeId) | Continues(n: nat) | Leaves(n: nat)

  /** A continuation runs only once its promise is resolved; a holder leaves when it likes. */
  function Perform(l: Lock, step: Step): Lock {
    match step
    case Arrives(e) => Arrive(l, e)
    case Continues(n) => if CanBeGranted(l, n) then Grant(l, n) else l
    case Leaves(n) => if IsHolding(l, n) then Release(l, n) else l
  }

  function After(steps: seq<Step>): Lock {
    if steps == [] then INITIAL else Perform(After(steps[..|steps| - 1]), steps[|steps| - 1])
  }

  // What every reachable lock satisfies.

  predicate SameEmployee(l: Lock, i: nat, j: nat) {
    i < |l.tickets| && j < |l.tickets| && l.tickets[i].employee == l.tickets[j].employee
  }

  /** Everyone who came before has left when it is `n`'s turn. */
  ghost predicate IsInTurn(l: Lock, n: nat)
    requires n < |l.tickets|
  {
    && (l.tickets[n].stage != Waiting || l.tickets[n].previous.None? ==>
          forall i: nat {:trigger SameEmployee(l, i, n)} ::
              i < n && SameEmployee(l, i, n) ==> l.tickets[i].stage == Released)
    && match l.tickets[n].previous
       case None => true
       case Some(p) =>
         && p < n && SameEmployee(l, p, n)
         && forall i: nat {:trigger SameEmployee(l, i, n)} :: p < i < n ==> !SameEmployee(l, i, n)
  }

  /** The map holds exactly the last ticket of everyone who is not done. */
  ghost predicate TailIsLast(l: Lock, n: nat)
    requires n < |l.tickets|
  {
    var e := l.tickets[n].employee;
    if e in l.tails then
      n <= l.tails[e] < |l.tickets| && l.tickets[l.tails[e]].employee == e && l.tickets[l.tails[e]].stage != Released
    else l.tickets[n].stage == Released
  }

  ghost predicate Invariant(l: Lock) {
    && (forall n: nat :: n < |l.tickets| ==> IsInTurn(l, n) && TailIsLast(l, n))
    && (forall e :: e in l.tails ==> l.tails[e] < |l.tickets| && l.tickets[l.tails[e]].employee == e)
  }

  lemma ArriveKeepsInvariant(l: Lock, e: EmployeeId)
    requires Invariant(l)
    ensures Invariant(Arrive(l, e))
  {
    var l' := Arrive(l, e);
    forall n: nat | n < |l'.tickets|
      ensures IsInTurn(l', n) && TailIsLast(l', n)
    {
      if n < |l.tickets| {
        assert IsInTurn(l, n) && TailIsLast(l, n);
        assert forall i: nat | i < n :: SameEmployee(l', i, n) == SameEmployee(l, i, n);
      } else {
        forall i: nat | i < n && SameEmployee(l', i, n)
          ensures e in l.tails ==> i <= l.tails[e]
          ensures e !in l.tails ==> l.tickets[i].stage == Released
        {
          assert TailIsLast(l, i);
        }
      }
    }
  }

  lemma GrantKeepsInvariant(l: Lock, n: nat)
    requires Invariant(l) && CanBeGranted(l, n)
    ensures Invariant(Grant(l, n))
  {
    var l' := Grant(l, n);
    assert IsInTurn(l, n);
    forall i: nat | i < n && SameEmployee(l, i, n)
      ensures l.tickets[i].stage == Released
    {
      match l.tickets[n].previous
      case None =>
      case Some(p) =>
        assert IsInTurn(l, p);
        assert i < p ==> SameEmployee(l, i, p);
    }
    forall k: nat | k < |l'.tickets|
      ensures IsInTurn(l', k) && TailIsLast(l', k)
    {
      assert IsInTurn(l, k) && TailIsLast(l, k);
      assert forall i: nat :: SameEmployee(l', i, k) == SameEmployee(l, i, k);
    }
  }

  lemma ReleaseKeepsInvariant(l: Lock, n: nat)
    requires Invariant(l) && IsHolding(l, n)
    ensures Invariant(Release(l, n))
  {
    var l' := Release(l, n);
    assert IsInTurn(l, n) && TailIsLast(l, n);
    forall k: nat | k < |l'.tickets|
      ensures IsInTurn(l', k) && TailIsLast(l', k)
    {
      assert IsInTurn(l, k) && TailIsLast(l, k);
      assert forall i: nat :: SameEmployee(l', i, k) == SameEmployee(l, i, k);
      assert k < n ==> SameEmployee(l, k, n) == SameEmployee(l, n, k);
    }
  }

  lemma {:induction false} EveryRunKeepsInvariant(steps: seq<Step>)
    ensures Invariant(After(steps))
  {
    if steps != [] {
      var l := After(steps[..|steps| - 1]);
      EveryRunKeepsInvariant(steps[..|steps| - 1]);
      match steps[|steps| - 1]
      case Arrives(e) => ArriveKeepsInvariant(l, e);
      case Continues(n) => if CanBeGranted(l, n) { GrantKeepsInvariant(l, n); }
      case Leaves(n) => if IsHolding(l, n) { ReleaseKeepsInvariant(l, n); }
    }
  }

  // The main results.

  /** At most one caller holds the session of an employee. */
  lemma MutualExclusion(steps: seq<Step>, i: nat, j: nat)
    requires IsHolding(After(steps), i) && IsHolding(After(steps), j) && SameEmployee(After(steps), i, j)
    ensures i == j
  {
    EveryRunKeepsInvariant(steps);
    var l := After(steps);
    assert IsInTurn(l, i) && IsInTurn(l, j);
    assert SameEmployee(l, j, i);
  }

  /** Grants follow the order of arrival. */
  lemma GrantedInOrderOfArrival(steps: seq<Step>, i: nat, j: nat)
    requires i < j && SameEmployee(After(steps), i, j) && After(steps).tickets[j].stage != Waiting
    ensures After(steps).tickets[i].stage == Released
  {
    EveryRunKeepsInvariant(steps);
    assert IsInTurn(After(steps), j);
  }

  /** The map entry is dropped exactly when everyone has left, so that no later
      caller gets ahead of one that waits. */
  lemma EntryIsDroppedWhenNobodyIsLeft(steps: seq<Step>, e: EmployeeId)
    ensures var l := After(steps);
            e !in l.tails <==> forall n: nat ::
                n < |l.tickets| && l.tickets[n].employee == e ==> l.tickets[n].stage == Released
  {
    EveryRunKeepsInvariant(steps);
    var l := After(steps);
    if e in l.tails {
      assert TailIsLast(l, l.tails[e]);
    } else {
      forall n: nat | n < |l.tickets| && l.tickets[n].employee == e
        ensures l.tickets[n].stage == Released
      {
        assert TailIsLast(l, n);
      }
    }
  }

  /** The lock is never stuck: the first caller that has not left holds it or can go on. */
  lemma FirstInLineCanGoOn(steps: seq<Step>, n: nat)
    requires n < |After(steps).tickets| && After(steps).tickets[n].stage != Released
    requires forall i: nat :: i < n && SameEmployee(After(steps), i, n) ==> After(steps).tickets[i].stage == Released
    ensures IsHolding(After(steps), n) || CanBeGranted(After(steps), n)
  {
    EveryRunKeepsInvariant(steps);
    assert IsInTurn(After(steps), n);
  }

  class SessionLocks {
    var sendTails: map<EmployeeId, nat>
    var tickets: seq<Ticket>

    function State(): Lock
      reads this
    {
      Lock(sendTails, tickets)
    }

    constructor ()
      ensures State() == INITIAL
    {
      sendTails, tickets := map[], [];
    }

    /** `#acquire` up to its await. */
    method Acquire(employee: EmployeeId) returns (tail: nat)
      modifies this
      ensures tail == |old(tickets)| && State() == Arrive(old(State()), employee)
    {
      var previous := if employee in sendTails then Some(sendTails[employee]) else None;
      tail := |tickets|;
      tickets := tickets + [Ticket(employee, previous, Waiting)];
      sendTails := sendTails[employee := tail];
    }

    method Continue(tail: nat)
      requires CanBeGranted(State(), tail)
      modifies this
      ensures State() == Grant(old(State()), tail)
    {
      tickets := tickets[tail := tickets[tail].(stage := Holding)];
    }

    /** The function that `#acquire` returns. */
    method Leave(tail: nat)
      requires IsHolding(State(), tail)
      modifies this
      ensures State() == Release(old(State()), tail)
    {
      var employee := tickets[tail].employee;
      tickets := tickets[tail := tickets[tail].(stage := Released)];
      if employee in sendTails && sendTails[employee] == tail {
        sendTails := sendTails - {employee};
      }
    }
  }
}
